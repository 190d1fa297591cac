/**
  guard.go in its own form: the Guard object with its refresh, reconcile,
  retake and release methods, and the loops that take the key. Each method is
  fed what its requests came back with, and proved to send the requests and to end in the
  state that the step machine does.
 */
module GuardObject {
  import opened Common
  import opened KvBucket
  import opened GuardProtocol
  import opened GuardCustody
  import opened GuardSplitBrain
  import opened GuardCode
  import opened GuardAnswers

  class Guard {
    const id: Id
    var revision: nat
    var lastOK: Time
    var lost: bool
    var released: bool

    function Held(): Lease
      reads this
    {
      Lease(revision, lastOK)
    }

    function State(): Phase
      reads this
    {
      if lost then Lost(Held()) else Holding(Held())
    }

    // acquireGuard's Guard value, once the key is taken.
    constructor (id: Id, l: Lease)
      ensures this.id == id && State() == Holding(l) && !released
    {
      this.id, revision, lastOK, lost, released := id, l.rev, l.lastOK, false, false;
    }

    /** Healthy, at the end of any run in which the guard came by its fields in world i: when it
        answers yes, the key named this instance in world s, at most a TTL and an operation timeout ago; and
        anything written past its revision was written within that time. */
    method IsHealthy(now: Time, ghost m: Membership, ghost ws: seq<World>, ghost i: nat)
      returns (ok: bool, ghost s: nat)
      requires Run(m, ws) && i < |ws| && now == ws[|ws| - 1].now && GuardCustody.Held(ws[i], id, Held())
      ensures ok <==> !lost && now <= lastOK + 30 * SECOND
      ensures ok ==> s <= i && Names(ws[s], id) && now - GUARD_TTL - GUARD_OP_TIMEOUT <= ws[s].now <= now
      ensures ok ==> WrittenSince(ws[|ws| - 1], revision, now - GUARD_TTL - GUARD_OP_TIMEOUT)
    {
      s := 0;
      if lost {
        return false, s;
      }
      if now - lastOK > GUARD_TTL {
        return false, s;
      }
      s := HealthBound(m, ws, i, |ws| - 1, id, Held());
      ghost var w := ws[|ws| - 1];
      forall x | revision <= x < |w.Log()| ensures now - GUARD_TTL - GUARD_OP_TIMEOUT <= w.Log()[x].at {
        SplitBrainBound(m, ws, i, |ws| - 1, id, Held(), x + 1);
      }
      return true, s;
    }

    method Refreshed(rev: nat, now: Time)
      modifies this`revision, this`lastOK
      ensures Held() == Lease(rev, now)
    {
      revision, lastOK := rev, now;
    }

    /** One refresh. Accepted, it renews the lease. Declined, it is lost exactly when the key is
        another's, or gone with more written since; its own value is adopted, and a key that is gone with
        nothing written since is created again. Any other answer leaves the lease as it was. */
    method RefreshOnce(m: Membership, ins: seq<Input>) returns (gone: bool, sent: seq<Request>)
      requires !lost
      modifies this`revision, this`lastOK, this`lost
      ensures Outcome(State(), sent) == Drive(m, id, Refreshing(old(Held())), ins)
      ensures gone == lost
      ensures gone <==> |ins| >= 2 && Declined(ins[0]) && Deposes(id, old(revision), ins[1..])
      ensures ins != [] && Accepted(ins[0]) ==> Held() == LeaseOf(ins[0])
      ensures |ins| >= 2 && Declined(ins[0]) && Restores(id, old(revision), ins[1..]) ==>
                Held() == Restored(id, old(revision), ins[1..])
      ensures !(ins != [] && Accepted(ins[0]))
              && !(|ins| >= 2 && Declined(ins[0]) && Restores(id, old(revision), ins[1..])) ==>
                Held() == old(Held())
      ensures sent <= [Update(id, old(revision)), Get(id), LastSeq(id), Create(id)]
    {
      sent := [Update(id, revision)];
      if ins == [] {
        return false, sent;
      }
      match ins[0] {
        case Answered(Done(r), t) =>
          Refreshed(r, t);
          return false, sent;
        case Answered(Refused, _) =>
          var more;
          gone, more := Reconcile(m, ins[1..]);
          return gone, sent + more;
        case _ =>
          return false, sent;
      }
    }

    method Reconcile(m: Membership, ins: seq<Input>) returns (gone: bool, sent: seq<Request>)
      requires !lost
      modifies this`revision, this`lastOK, this`lost
      ensures Outcome(State(), sent) == Drive(m, id, Reconciling(old(Held())), ins)
      ensures gone == lost
      ensures gone <==> Deposes(id, old(revision), ins)
      ensures Held() == if Restores(id, old(revision), ins) then Restored(id, old(revision), ins) else old(Held())
      ensures sent <= [Get(id), LastSeq(id), Create(id)]
    {
      sent := [Get(id)];
      if ins == [] {
        return false, sent;
      }
      match ins[0] {
        case Answered(Missing, _) =>
          var more;
          gone, more := RetakeExpired(m, ins[1..]);
          return gone, sent + more;
        case Answered(Found(r, owner), t) =>
          if OwnedBy(owner, id) {
            Refreshed(r, t);
            return false, sent;
          }
          lost := true;
          return true, sent;
        case _ =>
          return false, sent;
      }
    }

    method RetakeExpired(m: Membership, ins: seq<Input>) returns (gone: bool, sent: seq<Request>)
      requires !lost
      modifies this`revision, this`lastOK, this`lost
      ensures Outcome(State(), sent) == Drive(m, id, Counting(old(Held())), ins)
      ensures gone == lost
      ensures gone <==> ins != [] && Counts(ins[0]) && ins[0].a.seqno != old(revision)
      ensures Held() == if |ins| >= 2 && Counts(ins[0]) && ins[0].a.seqno == old(revision) && Accepted(ins[1])
                        then LeaseOf(ins[1]) else old(Held())
      ensures sent <= [LastSeq(id), Create(id)]
    {
      sent := [LastSeq(id)];
      if ins == [] || !ins[0].Answered? || !ins[0].a.Last? {
        return false, sent;
      }
      if ins[0].a.seqno != revision {
        lost := true;
        return true, sent;
      }
      DriveStep(m, id, Counting(Held()), ins);
      sent := sent + [Create(id)];
      var more := ins[1..];
      assert Drive(m, id, Recovering(Held()), more) ==
             Outcome(Holding(if more != [] && more[0].Answered? && more[0].a.Done?
                             then Lease(more[0].a.rev, more[0].at) else Held()),
                     [Create(id)]);
      if more == [] || !more[0].Answered? || !more[0].a.Done? {
        return false, sent;
      }
      Refreshed(more[0].a.rev, more[0].at);
      return false, sent;
    }

    /** Release, which acts once: a guard that was lost deletes nothing, and any other deletes
        the key only at a revision it knows for its own. */
    method Release(m: Membership, ins: seq<Input>) returns (sent: seq<Request>)
      modifies this`released
      ensures released
      ensures if old(released) || lost then sent == []
              else Outcome(Idle, sent) == Drive(m, id, Deleting(revision), ins)
      ensures !old(released) && !lost ==>
                sent == if ins == [] || !Declined(ins[0]) then [Remove(id, revision)]
                        else if |ins| >= 2 && ShowsOwn(id, ins[1])
                        then [Remove(id, revision), Get(id), Remove(id, ins[1].a.rev)]
                        else [Remove(id, revision), Get(id)]
    {
      if released {
        return [];
      }
      released := true;
      if lost {
        return [];
      }
      sent := [Remove(id, revision)];
      if ins == [] || ins[0] != Answered(Refused, ins[0].at) {
        return sent;
      }
      DriveStep(m, id, Deleting(revision), ins);
      var more := ins[1..];
      sent := sent + [Get(id)];
      if more == [] || !more[0].Answered? || !more[0].a.Found? || !OwnedBy(more[0].a.owner, id) {
        return sent;
      }
      DriveStep(m, id, Rereading, more);
      assert Drive(m, id, Redeleting(more[0].a.rev), more[1..]) == Outcome(Idle, [Remove(id, more[0].a.rev)]);
      sent := sent + [Remove(id, more[0].a.rev)];
    }
  }

  // ---- taking the key ----

  // What one look at the key found, or one watch of it, or one attempt to retake it.
  datatype Look =
    | Taken(lease: Lease)
    | GaveUp
    | Contested
    | Foreign(rev: nat, at: Time)
    | Moved(owner: Id, at: Time)
    | Unmoved

  /** `goal`, the machine's outcome for the whole acquisition, is reached by sending `sent`, then
      going on from what the last look came to with the inputs left. */
  ghost predicate Continues(m: Membership, id: Id, round: nat, rev: nat, goal: Outcome, look: Look,
                            sent: seq<Request>, rest: seq<Input>) {
    match look
    case Taken(l) => goal == Outcome(Holding(l), sent)
    case GaveUp => goal == Outcome(Idle, sent)
    case Contested => goal == After(sent, AtRound(m, id, round + 1, rest))
    case Foreign(r, t) => goal == After(sent, Take(m, id, Polling(HA(round), r, t), rest))
    case Moved(o, t) =>
      goal == if o == "" || (o != id && !m(id, o, t)) then Outcome(Idle, sent)
              else After(sent, AtRound(m, id, round + 1, rest))
    case Unmoved => goal == After(sent, Take(m, id, Rechecking(HA(round), rev), rest))
  }

  // The answers after a declined create settle the attempt, and how.
  predicate HolderSettles(m: Membership, id: Id, ins: seq<Input>) {
    && ins != []
    && (ShowsOwn(id, ins[0]) || ShowsOutsider(m, id, ins[0])
        || (ShowsMember(m, id, ins[0]) && |ins| >= 2 && (Accepted(ins[1]) || Declined(ins[1]))))
  }

  function HolderLook(m: Membership, id: Id, ins: seq<Input>): Look
    requires HolderSettles(m, id, ins)
  {
    if ShowsOwn(id, ins[0]) then Taken(LeaseOf(ins[0]))
    else if ShowsOutsider(m, id, ins[0]) then Foreign(ins[0].a.rev, ins[0].at)
    else if Accepted(ins[1]) then Taken(LeaseOf(ins[1]))
    else Contested
  }

  // So do the answers of a whole first attempt.
  predicate Settles(m: Membership, id: Id, ins: seq<Input>) {
    ins != [] && (Accepted(ins[0]) || (Declined(ins[0]) && HolderSettles(m, id, ins[1..])))
  }

  function SettledLook(m: Membership, id: Id, ins: seq<Input>): Look
    requires Settles(m, id, ins)
  {
    if Accepted(ins[0]) then Taken(LeaseOf(ins[0])) else HolderLook(m, id, ins[1..])
  }

  /** createGuardKey, for a holder without members: it takes a free key, finds its own, or is
      refused by anyone else's. */
  method CreateGuardKey(m: Membership, id: Id, ins: seq<Input>) returns (held: seq<Lease>, sent: seq<Request>)
    ensures |held| <= 1
    ensures Take(m, id, Creating(Plain), ins) == Outcome(if held == [] then Idle else Holding(held[0]), sent)
    ensures ins != [] && Accepted(ins[0]) ==> held == [LeaseOf(ins[0])] && sent == [Create(id)]
    ensures |ins| >= 2 && Declined(ins[0]) && Shows(ins[1]) ==>
              held == (if ShowsOwn(id, ins[1]) then [LeaseOf(ins[1])] else []) && sent == [Create(id), Get(id)]
  {
    AnswersCreate(m, id, ins);
    ghost var goal := Take(m, id, Creating(Plain), ins);
    var rest := ins;
    sent := [];
    while rest != []
      invariant goal == After(sent, Take(m, id, Creating(Plain), rest))
      decreases |rest|
    {
      var again;
      held, sent, rest, again := CreateOnce(m, id, goal, sent, rest);
      if !again {
        return;
      }
    }
    TakeStep(m, id, Creating(Plain), sent, rest);
    return [], sent + [Create(id)];
  }

  // One attempt of createGuardKey; `again` asks for another.
  method CreateOnce(m: Membership, id: Id, ghost goal: Outcome, before: seq<Request>, ins: seq<Input>)
    returns (held: seq<Lease>, sent: seq<Request>, rest: seq<Input>, again: bool)
    requires ins != [] && goal == After(before, Take(m, id, Creating(Plain), ins))
    ensures |rest| < |ins| && |held| <= 1
    ensures if again then goal == After(sent, Take(m, id, Creating(Plain), rest))
            else goal == Outcome(if held == [] then Idle else Holding(held[0]), sent)
  {
    TakeStep(m, id, Creating(Plain), before, ins);
    var i := ins[0];
    held, sent, rest, again := [], before + [Create(id)], ins[1..], false;
    if i.Answered? && i.a.Done? {
      held := [Lease(i.a.rev, i.at)];
    } else if i.Answered? && i.a.Refused? {
      TakeStep(m, id, Reading(Plain), sent, rest);
      sent := sent + [Get(id)];
      if rest == [] {
        return;
      }
      i, rest := rest[0], rest[1..];
      if i.Answered? && i.a.Found? {
        held := if OwnedBy(i.a.owner, id) then [Lease(i.a.rev, i.at)] else [];
      } else {
        again := !(i.Failed? && i.definite);
      }
    } else {
      again := !(i.Failed? && i.definite);
    }
  }

  /** probeGuardKey: create the key, or find its holder and overwrite a member's, retrying what a
      retry can clear. */
  method ProbeGuardKey(m: Membership, id: Id, round: nat, ins: seq<Input>)
    returns (look: Look, sent: seq<Request>, rest: seq<Input>)
    ensures Continues(m, id, round, 0, Take(m, id, Creating(HA(round)), ins), look, sent, rest)
    ensures !look.Moved? && !look.Unmoved?
    ensures Settles(m, id, ins) ==> look == SettledLook(m, id, ins)
  {
    ghost var goal := Take(m, id, Creating(HA(round)), ins);
    sent, rest := [], ins;
    while rest != []
      invariant goal == After(sent, Take(m, id, Creating(HA(round)), rest))
      invariant rest == ins || !Settles(m, id, ins)
      decreases |rest|
    {
      var again;
      look, sent, rest, again := ProbeOnce(m, id, round, goal, sent, rest);
      if !again {
        return;
      }
    }
    TakeStep(m, id, Creating(HA(round)), sent, rest);
    return GaveUp, sent + [Create(id)], rest;
  }

  // One attempt of a probe; `again` asks for another.
  method ProbeOnce(m: Membership, id: Id, round: nat, ghost goal: Outcome, before: seq<Request>, ins: seq<Input>)
    returns (look: Look, sent: seq<Request>, rest: seq<Input>, again: bool)
    requires ins != [] && goal == After(before, Take(m, id, Creating(HA(round)), ins))
    ensures |rest| < |ins|
    ensures if again then goal == After(sent, Take(m, id, Creating(HA(round)), rest))
            else Continues(m, id, round, 0, goal, look, sent, rest) && !look.Moved? && !look.Unmoved?
    ensures Settles(m, id, ins) ==> !again && look == SettledLook(m, id, ins)
  {
    TakeStep(m, id, Creating(HA(round)), before, ins);
    var i := ins[0];
    look, sent, rest, again := GaveUp, before + [Create(id)], ins[1..], false;
    if i.Answered? && i.a.Done? {
      look := Taken(Lease(i.a.rev, i.at));
    } else if i.Answered? && i.a.Refused? {
      look, sent, rest, again := ReadHolder(m, id, round, goal, sent, rest);
    } else if !(i.Failed? && i.definite) {
      again := true;
    }
  }

  // The rest of a probe whose create was refused; `again` asks for another attempt.
  method ReadHolder(m: Membership, id: Id, round: nat, ghost goal: Outcome, before: seq<Request>, ins: seq<Input>)
    returns (look: Look, sent: seq<Request>, rest: seq<Input>, again: bool)
    requires goal == After(before, Take(m, id, Reading(HA(round)), ins))
    ensures |rest| <= |ins|
    ensures if again then goal == After(sent, Take(m, id, Creating(HA(round)), rest))
            else Continues(m, id, round, 0, goal, look, sent, rest) && !look.Moved? && !look.Unmoved?
    ensures HolderSettles(m, id, ins) ==> !again && look == HolderLook(m, id, ins)
  {
    TakeStep(m, id, Reading(HA(round)), before, ins);
    look, sent, rest, again := GaveUp, before + [Get(id)], ins, false;
    if ins == [] {
      return;
    }
    var i := ins[0];
    rest := ins[1..];
    if i.Answered? && i.a.Found? {
      var rev, owner := i.a.rev, i.a.owner;
      if OwnedBy(owner, id) {
        look := Taken(Lease(rev, i.at));
      } else if !IsGuardMember(m, id, owner, i.at) {
        look := Foreign(rev, i.at);
      } else {
        look, sent, rest, again := OverwriteMember(m, id, round, rev, goal, sent, rest);
      }
    } else if !(i.Failed? && i.definite) {
      again := true;
    }
  }

  method OverwriteMember(m: Membership, id: Id, round: nat, rev: nat, ghost goal: Outcome, before: seq<Request>,
                         ins: seq<Input>)
    returns (look: Look, sent: seq<Request>, rest: seq<Input>, again: bool)
    requires goal == After(before, Take(m, id, Overwriting(HA(round), rev), ins))
    ensures |rest| <= |ins|
    ensures if again then goal == After(sent, Take(m, id, Creating(HA(round)), rest))
            else Continues(m, id, round, 0, goal, look, sent, rest) && !look.Moved? && !look.Unmoved?
    ensures ins != [] && Accepted(ins[0]) ==> !again && look == Taken(LeaseOf(ins[0]))
    ensures ins != [] && Declined(ins[0]) ==> !again && look.Contested?
  {
    ghost var p := Overwriting(HA(round), rev);
    TakeStep(m, id, p, before, ins);
    look, sent, rest, again := GaveUp, before + [Update(id, rev)], ins, false;
    if ins == [] {
      return;
    }
    var i := ins[0];
    rest := ins[1..];
    if i.Answered? && i.a.Done? {
      look := Taken(Lease(i.a.rev, i.at));
    } else if i.Answered? && i.a.Refused? {
      RoundEnds(m, id, round, p, before, ins);
      look := Contested;
    } else if !(i.Failed? && i.definite) {
      again := true;
    }
  }

  // A watch from `start` that saw the first n answers, and what it makes of them.
  ghost predicate Watched(look: Look, rev: nat, start: Time, ins: seq<Input>, n: nat)
    requires n <= |ins|
  {
    && (forall k :: 0 <= k < n - 1 ==> Still(ins[k], rev) && !Due(ins[k], start))
    && match look
       case Moved(o, t) => n > 0 && exists r :: r != rev && ins[n - 1] == Answered(Found(r, o), t)
       case Unmoved =>
         n > 0 && ((ins[n - 1].Answered? && ins[n - 1].a.Missing?)
                   || (Still(ins[n - 1], rev) && Due(ins[n - 1], start)))
       case _ => look.GaveUp? && n == |ins| && (n > 0 ==> Still(ins[n - 1], rev) && !Due(ins[n - 1], start))
  }

  // What the machine makes of one poll.
  lemma PollTurn(m: Membership, id: Id, round: nat, rev: nat, start: Time, sent: seq<Request>, ins: seq<Input>)
    requires ins != []
    ensures var i, sent', left := ins[0], sent + [Get(id)], ins[1..];
            After(sent, Take(m, id, Polling(HA(round), rev, start), ins)) ==
            if i.Answered? && i.a.Found? && i.a.rev != rev then
              if i.a.owner == "" || (i.a.owner != id && !m(id, i.a.owner, i.at)) then Outcome(Idle, sent')
              else After(sent', AtRound(m, id, round + 1, left))
            else if (i.Answered? && i.a.Missing?) || start + GUARD_TTL + WATCH_POLL <= i.at then
              After(sent', Take(m, id, Rechecking(HA(round), rev), left))
            else After(sent', Take(m, id, Polling(HA(round), rev, start), left))
  {
    var p, i := Polling(HA(round), rev, start), ins[0];
    TakeStep(m, id, p, sent, ins);
    if i.Answered? && i.a.Found? && i.a.rev != rev
      && !(i.a.owner == "" || (i.a.owner != id && !m(id, i.a.owner, i.at))) {
      RoundEnds(m, id, round, p, sent, ins);
    }
  }

  /** watchGuardKey: poll the key until its revision changes, it is gone, or it has stood for a
      TTL and one poll. A read that failed says nothing. */
  method WatchGuardKey(m: Membership, id: Id, round: nat, rev: nat, start: Time, ins: seq<Input>)
    returns (look: Look, sent: seq<Request>, rest: seq<Input>)
    ensures Continues(m, id, round, rev, Take(m, id, Polling(HA(round), rev, start), ins), look, sent, rest)
    ensures |rest| <= |ins|
    ensures Watched(look, rev, start, ins, |ins| - |rest|)
    ensures forall q :: q in sent ==> q == Get(id)
  {
    ghost var p := Polling(HA(round), rev, start);
    ghost var goal := Take(m, id, p, ins);
    sent, rest := [], ins;
    while rest != []
      invariant goal == After(sent, Take(m, id, p, rest))
      invariant |rest| <= |ins| && rest == ins[|ins| - |rest|..]
      invariant forall k :: 0 <= k < |ins| - |rest| ==> Still(ins[k], rev) && !Due(ins[k], start)
      invariant forall q :: q in sent ==> q == Get(id)
      decreases |rest|
    {
      PollTurn(m, id, round, rev, start, sent, rest);
      var i := rest[0];
      if i.Answered? && i.a.Found? && i.a.rev != rev {
        return Moved(i.a.owner, i.at), sent + [Get(id)], rest[1..];
      }
      sent, rest := sent + [Get(id)], rest[1..];
      if i.Answered? && i.a.Missing? {
        return Unmoved, sent, rest;
      }
      if start + GUARD_TTL + WATCH_POLL <= i.at {
        return Unmoved, sent, rest;
      }
    }
    TakeStep(m, id, p, sent, rest);
    return GaveUp, sent + [Get(id)], rest;
  }

  // retakeStaleGuardKey: create the key when it is gone, overwrite it when it is unchanged.
  method RetakeStale(m: Membership, id: Id, round: nat, rev: nat, ghost goal: Outcome, before: seq<Request>,
                     ins: seq<Input>)
    returns (look: Look, sent: seq<Request>, rest: seq<Input>)
    requires goal == After(before, Take(m, id, Rechecking(HA(round), rev), ins))
    ensures Continues(m, id, round, rev, goal, look, sent, rest)
    ensures look.Taken? || look.GaveUp? || look.Contested?
    ensures |ins| >= 2 && (ShowsNone(ins[0]) || (Shows(ins[0]) && ins[0].a.rev == rev)) && Accepted(ins[1]) ==>
              look == Taken(LeaseOf(ins[1]))
  {
    ghost var p := Rechecking(HA(round), rev);
    TakeStep(m, id, p, before, ins);
    look, sent, rest := GaveUp, before + [Get(id)], ins;
    if ins == [] {
      return;
    }
    var i := ins[0];
    rest := ins[1..];
    if !i.Answered? || !(i.a.Missing? || i.a.Found?) {
      return;
    }
    if i.a.Found? && i.a.rev != rev {
      RoundEnds(m, id, round, p, before, ins);
      return Contested, sent, rest;
    }
    look, sent, rest := WriteStale(m, id, round, rev, i.a.Missing?, goal, sent, rest);
  }

  method WriteStale(m: Membership, id: Id, round: nat, rev: nat, gone: bool, ghost goal: Outcome,
                    before: seq<Request>, ins: seq<Input>)
    returns (look: Look, sent: seq<Request>, rest: seq<Input>)
    requires goal == After(before, Take(m, id, if gone then Recreating(HA(round)) else Retaking(HA(round), rev), ins))
    ensures Continues(m, id, round, rev, goal, look, sent, rest)
    ensures look.Taken? || look.GaveUp? || look.Contested?
    ensures ins != [] && Accepted(ins[0]) ==> look == Taken(LeaseOf(ins[0]))
  {
    ghost var p := if gone then Recreating(HA(round)) else Retaking(HA(round), rev);
    TakeStep(m, id, p, before, ins);
    look, sent, rest := GaveUp, before + [if gone then Create(id) else Update(id, rev)], ins;
    if ins == [] {
      return;
    }
    var i := ins[0];
    rest := ins[1..];
    if i.Answered? && i.a.Done? {
      return Taken(Lease(i.a.rev, i.at)), sent, rest;
    }
    if i.Answered? && i.a.Refused? {
      RoundEnds(m, id, round, p, before, ins);
      return Contested, sent, rest;
    }
  }

  /** One round of takeGuardKey: probe the key; watch a non-member's; retake it when it stood
      still. */
  method TakeRound(m: Membership, id: Id, round: nat, ins: seq<Input>)
    returns (look: Look, sent: seq<Request>, rest: seq<Input>)
    ensures Continues(m, id, round, 0, Take(m, id, Creating(HA(round)), ins), look, sent, rest)
    ensures look.Taken? || look.GaveUp? || look.Contested?
    ensures Settles(m, id, ins) && !SettledLook(m, id, ins).Foreign? ==> look == SettledLook(m, id, ins)
  {
    look, sent, rest := ProbeGuardKey(m, id, round, ins);
    if !look.Foreign? {
      return;
    }
    var rev := look.rev;
    var more;
    look, more, rest := WatchGuardKey(m, id, round, rev, look.at, rest);
    AfterAfter(sent, more, AtRound(m, id, round + 1, rest));
    AfterAfter(sent, more, Take(m, id, Rechecking(HA(round), rev), rest));
    sent := sent + more;
    if look.Moved? {
      look := if look.owner == "" || (look.owner != id && !m(id, look.owner, look.at)) then GaveUp else Contested;
    } else if look.Unmoved? {
      look, sent, rest := RetakeStale(m, id, round, rev, Take(m, id, Creating(HA(round)), ins), sent, rest);
    }
  }

  /** takeGuardKey: at most guardTakeRounds rounds. For every sequence of answers it sends what the
      machine sends, and holds the guard exactly when the machine does: so, a free key is taken, its own
      adopted, a member's written over, and an outsider's once it stood still through n polls. */
  method TakeGuardKey(m: Membership, id: Id, ins: seq<Input>) returns (held: seq<Lease>, sent: seq<Request>)
    ensures |held| <= 1
    ensures Take(m, id, Creating(HA(0)), ins) == Outcome(if held == [] then Idle else Holding(held[0]), sent)
    ensures ins != [] && Accepted(ins[0]) ==> held == [LeaseOf(ins[0])] && sent == [Create(id)]
    ensures |ins| >= 2 && Declined(ins[0]) && ShowsOwn(id, ins[1]) ==>
              held == [LeaseOf(ins[1])] && sent == [Create(id), Get(id)]
    ensures |ins| >= 3 && Declined(ins[0]) && ShowsMember(m, id, ins[1]) && Accepted(ins[2]) ==>
              held == [LeaseOf(ins[2])] && sent == [Create(id), Get(id), Update(id, ins[1].a.rev)]
    ensures forall n: nat :: StoodStill(m, id, ins, n) && Accepted(ins[n + 4]) ==>
              held == [LeaseOf(ins[n + 4])] &&
              sent == [Create(id), Get(id)] + Polls(id, n + 2) + [Update(id, ins[1].a.rev)]
  {
    AnswersTake(m, id, ins);
    ghost var goal := Take(m, id, Creating(HA(0)), ins);
    var rest := ins;
    sent := [];
    for round := 0 to GUARD_TAKE_ROUNDS
      invariant goal == After(sent, AtRound(m, id, round, rest))
    {
      var look, more, left := TakeRound(m, id, round, rest);
      if look.Taken? {
        return [look.lease], sent + more;
      } else if look.GaveUp? {
        return [], sent + more;
      }
      AfterAfter(sent, more, AtRound(m, id, round + 1, left));
      sent, rest := sent + more, left;
    }
    held := [];
  }

  datatype Verdict = MayJoin | HeldElsewhere(owner: Id) | CheckFailed

  // What the lookup of the guard's bucket came to, once its retries were over.
  datatype Lookup = BucketFound | NoBucket | LookupFailed

  // The first answer shows the key with a value that is not a member's.
  predicate Contends(m: Membership, id: Id, ins: seq<Input>) {
    ins != [] && Shows(ins[0]) && !Joined(m, id, ins[0])
  }

  // The key was found with a member's value.
  predicate Joined(m: Membership, id: Id, i: Input) {
    Shows(i) && i.a.owner != "" && m(id, i.a.owner, i.at)
  }

  /** A watch of the key as the first answer shows it ends with answer k: until then the key stands
      still and the watch is not over. */
  ghost predicate EndsWatch(ins: seq<Input>, k: int)
    requires ins != [] && Shows(ins[0])
  {
    var rev, start := ins[0].a.rev, ins[0].at;
    && 1 <= k < |ins|
    && (forall j :: 1 <= j < k ==> Still(ins[j], rev) && !Due(ins[j], start))
    && !(Still(ins[k], rev) && !Due(ins[k], start))
  }

  /** CheckGuard: a standby may join exactly when there is no bucket, or the key is absent, a member's, or
      watched until it is; or it stands still for a TTL and a poll. It is refused exactly for a key
      that it saw refreshed by, or pass to, a holder outside the database. It never writes. */
  method CheckGuard(m: Membership, id: Id, bucket: Lookup, ins: seq<Input>)
    returns (v: Verdict, sent: seq<Request>, n: nat)
    ensures n <= |ins| && (v.HeldElsewhere? ==> n > 0 && Shows(ins[n - 1]) && ins[n - 1].a.owner == v.owner)
    ensures bucket.NoBucket? ==> v.MayJoin? && sent == []
    ensures bucket.LookupFailed? ==> v.CheckFailed? && sent == []
    ensures forall q :: q in sent ==> q == Get(id)
    ensures bucket.BucketFound? ==>
              (v.HeldElsewhere? <==>
               Contends(m, id, ins) && EndsWatch(ins, n - 1) && Shows(ins[n - 1]) &&
               ins[n - 1].a.rev != ins[0].a.rev && !Joined(m, id, ins[n - 1]))
    ensures bucket.BucketFound? ==>
              (v.MayJoin? <==>
               || (ins != [] && (ShowsNone(ins[0]) || Joined(m, id, ins[0])))
               || (Contends(m, id, ins) && EndsWatch(ins, n - 1) &&
                   (ShowsNone(ins[n - 1]) || Still(ins[n - 1], ins[0].a.rev) || Joined(m, id, ins[n - 1]))))
    ensures bucket.BucketFound? && Contends(m, id, ins) && v.CheckFailed? ==> forall k :: !EndsWatch(ins, k)
  {
    if bucket.NoBucket? {
      return MayJoin, [], 0;
    } else if bucket.LookupFailed? {
      return CheckFailed, [], 0;
    }
    sent, n := [Get(id)], 0;
    if ins == [] || !ins[0].Answered? || !(ins[0].a.Missing? || ins[0].a.Found?) {
      return CheckFailed, sent, 0;
    }
    var a, t := ins[0].a, ins[0].at;
    if a.Missing? || IsGuardMember(m, id, a.owner, t) {
      return MayJoin, sent, 1;
    }
    var look, more, rest := WatchGuardKey(m, id, 0, a.rev, t, ins[1..]);
    sent, n := sent + more, |ins| - |rest|;
    assert forall k :: 1 <= k < n ==> ins[k] == ins[1..][k - 1];
    match look {
      case Moved(o, t') =>
        v := if IsGuardMember(m, id, o, t') then MayJoin else HeldElsewhere(o);
      case Unmoved =>
        v := MayJoin;
      case _ =>
        v := CheckFailed;
    }
  }
}

/**
  What the code makes of its answers, read off the answers alone: which of them
  give a server the guard, which send it into another round or another attempt, and
  which end the acquisition without the guard.
 */
module GuardAnswers {
  import opened Common
  import opened KvBucket
  import opened GuardProtocol
  import opened GuardCode

  lemma DriveStep(m: Membership, id: Id, p: Point, ins: seq<Input>)
    requires ins != []
    ensures Drive(m, id, p, ins) ==
            match TurnOf(m, id, false, p, ins[0])
            case Stop(ph) => Outcome(ph, [RequestAt(id, p)])
            case Go(p') => After([RequestAt(id, p)], Drive(m, id, p', ins[1..]))
  {
  }

  lemma TakeStep(m: Membership, id: Id, p: Point, before: seq<Request>, ins: seq<Input>)
    ensures After(before, Take(m, id, p, ins)) ==
            if ins == [] then Outcome(Idle, before + [RequestAt(id, p)])
            else match TurnOf(m, id, true, p, ins[0])
                 case Stop(ph) => Outcome(ph, before + [RequestAt(id, p)])
                 case Go(p') => After(before + [RequestAt(id, p)], Take(m, id, p', ins[1..]))
  {
    if ins != [] {
      match TurnOf(m, id, true, p, ins[0])
      case Stop(_) =>
      case Go(p') => AfterAfter(before, [RequestAt(id, p)], Take(m, id, p', ins[1..]));
    }
  }

  lemma AfterAfter(a: seq<Request>, b: seq<Request>, o: Outcome)
    ensures After(a, After(b, o)) == After(a + b, o)
  {
    assert a + (b + o.sent) == (a + b) + o.sent;
  }

  // Where an acquisition stands once takeGuardKey ends a round: at the next one's first request.
  function AtRound(m: Membership, id: Id, round: nat, ins: seq<Input>): Outcome {
    if round < GUARD_TAKE_ROUNDS then Take(m, id, Creating(HA(round)), ins) else Outcome(Idle, [])
  }

  // A turn that ends the round.
  lemma RoundEnds(m: Membership, id: Id, round: nat, p: Point, before: seq<Request>, ins: seq<Input>)
    requires ins != [] && React(m, id, p, ins[0]) == Rest(NextRound(HA(round)))
    ensures After(before, Take(m, id, p, ins)) ==
            After(before + [RequestAt(id, p)], AtRound(m, id, round + 1, ins[1..]))
  {
    TakeStep(m, id, p, before, ins);
  }

  // ---- kinds of answers ----

  predicate Accepted(i: Input) {
    i.Answered? && i.a.Done?
  }

  predicate Declined(i: Input) {
    i.Answered? && i.a.Refused?
  }

  predicate Shows(i: Input) {
    i.Answered? && i.a.Found?
  }

  predicate ShowsNone(i: Input) {
    i.Answered? && i.a.Missing?
  }

  // The lease an accepted write gives, or the sender's own value found on the key.
  function LeaseOf(i: Input): Lease
    requires Accepted(i) || Shows(i)
  {
    Lease(i.a.rev, i.at)
  }

  // The key was found with this instance's own value, a member's, or anyone else's.
  predicate ShowsOwn(id: Id, i: Input) {
    Shows(i) && i.a.owner == id && id != ""
  }

  predicate ShowsMember(m: Membership, id: Id, i: Input) {
    Shows(i) && i.a.owner != id && i.a.owner != "" && m(id, i.a.owner, i.at)
  }

  predicate ShowsOutsider(m: Membership, id: Id, i: Input) {
    Shows(i) && (i.a.owner == "" || (i.a.owner != id && !m(id, i.a.owner, i.at)))
  }

  // An answer to a poll that leaves the key as it was: at rev, or unknown.
  predicate Still(i: Input, rev: nat) {
    i.Answered? ==> !i.a.Missing? && (i.a.Found? ==> i.a.rev == rev)
  }

  // A watch begun at `start` is over: a TTL and one poll have passed.
  predicate Due(i: Input, start: Time) {
    start + 32 * SECOND <= i.at
  }

  // ---- one round of an acquisition ----

  lemma FreeKeyTaken(m: Membership, id: Id, mode: Mode, ins: seq<Input>)
    requires ins != [] && Accepted(ins[0])
    ensures Take(m, id, Creating(mode), ins) == Outcome(Holding(LeaseOf(ins[0])), [Create(id)])
  {
  }

  // A turn of an acquisition that sends another request.
  lemma Unfold(m: Membership, id: Id, p: Point, p': Point, ins: seq<Input>)
    requires ins != [] && TurnOf(m, id, true, p, ins[0]) == Go(p')
    ensures Take(m, id, p, ins) == After([RequestAt(id, p)], Take(m, id, p', ins[1..]))
  {
  }

  lemma OwnKeyAdopted(m: Membership, id: Id, mode: Mode, ins: seq<Input>)
    requires |ins| >= 2 && Declined(ins[0]) && ShowsOwn(id, ins[1])
    ensures Take(m, id, Creating(mode), ins) == Outcome(Holding(LeaseOf(ins[1])), [Create(id), Get(id)])
  {
    Unfold(m, id, Creating(mode), Reading(mode), ins);
  }

  // Without members, anyone else's key is refused.
  lemma OtherKeyRefused(m: Membership, id: Id, ins: seq<Input>)
    requires |ins| >= 2 && Declined(ins[0]) && Shows(ins[1]) && !ShowsOwn(id, ins[1])
    ensures Take(m, id, Creating(Plain), ins) == Outcome(Idle, [Create(id), Get(id)])
  {
    Unfold(m, id, Creating(Plain), Reading(Plain), ins);
  }

  /** A member's key is overwritten at the revision it was found at: accepted, the guard is held at
      the new revision; declined, the next of at most three rounds begins; failed, the attempt is
      made again, unless the failure is definite. */
  lemma MemberKeyOverwritten(m: Membership, id: Id, round: nat, ins: seq<Input>)
    requires |ins| >= 3 && Declined(ins[0]) && ShowsMember(m, id, ins[1])
    ensures var sent := [Create(id), Get(id), Update(id, ins[1].a.rev)];
            && (Accepted(ins[2]) ==>
                  Take(m, id, Creating(HA(round)), ins) == Outcome(Holding(LeaseOf(ins[2])), sent))
            && (Declined(ins[2]) ==>
                  Take(m, id, Creating(HA(round)), ins) ==
                  After(sent, if round < 2 then Take(m, id, Creating(HA(round + 1)), ins[3..]) else Outcome(Idle, [])))
            && (ins[2].Failed? ==>
                  Take(m, id, Creating(HA(round)), ins) ==
                  After(sent,
                        if ins[2].definite then Outcome(Idle, []) else Take(m, id, Creating(HA(round)), ins[3..])))
  {
    var p, q := Reading(HA(round)), Overwriting(HA(round), ins[1].a.rev);
    Unfold(m, id, Creating(HA(round)), p, ins);
    Unfold(m, id, p, q, ins[1..]);
    if Declined(ins[2]) {
      RoundEnds(m, id, round, q, [Create(id), Get(id)], ins[2..]);
    } else {
      TakeStep(m, id, q, [Create(id), Get(id)], ins[2..]);
    }
  }

  /** Anyone else's key, and one whose value cannot be read, is watched from where it was found. */
  lemma OutsiderKeyWatched(m: Membership, id: Id, round: nat, ins: seq<Input>)
    requires |ins| >= 2 && Declined(ins[0]) && ShowsOutsider(m, id, ins[1])
    ensures Take(m, id, Creating(HA(round)), ins) ==
            After([Create(id), Get(id)], Take(m, id, Polling(HA(round), ins[1].a.rev, ins[1].at), ins[2..]))
  {
    var p := Reading(HA(round));
    Unfold(m, id, Creating(HA(round)), p, ins);
    Unfold(m, id, p, Polling(HA(round), ins[1].a.rev, ins[1].at), ins[1..]);
    AfterAfter([Create(id)], [Get(id)], Take(m, id, Polling(HA(round), ins[1].a.rev, ins[1].at), ins[2..]));
  }

  // An attempt that failed, or found the key gone again, is made again, unless the failure is definite.
  lemma AttemptRetried(m: Membership, id: Id, mode: Mode, ins: seq<Input>)
    requires ins != []
    ensures ins[0].Failed? ==>
              Take(m, id, Creating(mode), ins) ==
              After([Create(id)], if ins[0].definite then Outcome(Idle, []) else Take(m, id, Creating(mode), ins[1..]))
    ensures |ins| >= 2 && Declined(ins[0]) && (ins[1].Failed? || ShowsNone(ins[1])) ==>
              Take(m, id, Creating(mode), ins) ==
              After([Create(id), Get(id)],
                    if ins[1].Failed? && ins[1].definite then Outcome(Idle, [])
                    else Take(m, id, Creating(mode), ins[2..]))
  {
    if |ins| >= 2 && Declined(ins[0]) {
      Unfold(m, id, Creating(mode), Reading(mode), ins);
      TakeStep(m, id, Reading(mode), [Create(id)], ins[1..]);
    }
  }

  // ---- the watch ----

  // n polls.
  function Polls(id: Id, n: nat): (s: seq<Request>)
    ensures |s| == n && forall q :: q in s ==> q == Get(id)
  {
    seq(n, _ => Get(id))
  }

  // While the key stands still and the watch is not over, it goes on.
  lemma {:induction false} WatchGoesOn(m: Membership, id: Id, round: nat, rev: nat, start: Time, ins: seq<Input>,
                                       n: nat)
    requires n <= |ins| && forall k :: 0 <= k < n ==> Still(ins[k], rev) && !Due(ins[k], start)
    ensures var p := Polling(HA(round), rev, start);
            Take(m, id, p, ins) == After(Polls(id, n), Take(m, id, p, ins[n..]))
    decreases n
  {
    var p := Polling(HA(round), rev, start);
    if n == 0 {
      assert ins[0..] == ins && Polls(id, 0) == [];
    } else {
      Unfold(m, id, p, p, ins);
      forall k | 0 <= k < n - 1 ensures Still(ins[1..][k], rev) && !Due(ins[1..][k], start) {
        assert ins[1..][k] == ins[k + 1];
      }
      WatchGoesOn(m, id, round, rev, start, ins[1..], n - 1);
      assert ins[1..][n - 1..] == ins[n..];
      AfterAfter([Get(id)], Polls(id, n - 1), Take(m, id, p, ins[n..]));
      assert [Get(id)] + Polls(id, n - 1) == Polls(id, n);
    }
  }

  /** A watched key that changed hands ends the acquisition when it now shows an outsider, and the
      round when it shows this instance or a member. */
  lemma WatchSeesMove(m: Membership, id: Id, round: nat, rev: nat, start: Time, ins: seq<Input>)
    requires ins != [] && Shows(ins[0]) && ins[0].a.rev != rev
    ensures Take(m, id, Polling(HA(round), rev, start), ins) ==
            After([Get(id)],
                  if ShowsOutsider(m, id, ins[0]) || round >= 2 then Outcome(Idle, [])
                  else Take(m, id, Creating(HA(round + 1)), ins[1..]))
  {
  }

  lemma WatchEnds(m: Membership, id: Id, round: nat, rev: nat, start: Time, ins: seq<Input>)
    requires ins != [] && (ShowsNone(ins[0]) || (Still(ins[0], rev) && Due(ins[0], start)))
    ensures Take(m, id, Polling(HA(round), rev, start), ins) ==
            After([Get(id)], Take(m, id, Rechecking(HA(round), rev), ins[1..]))
  {
  }

  /** What stood still is looked at once more: gone, it is created; unchanged, it is overwritten; and
      the write decides, or the next round does. */
  lemma StaleKeyRetaken(m: Membership, id: Id, round: nat, rev: nat, ins: seq<Input>)
    requires ins != []
    ensures var o := Take(m, id, Rechecking(HA(round), rev), ins);
            && (Shows(ins[0]) && ins[0].a.rev != rev ==> o == After([Get(id)], AtRound(m, id, round + 1, ins[1..])))
            && (|ins| >= 2 && (ShowsNone(ins[0]) || (Shows(ins[0]) && ins[0].a.rev == rev)) ==>
                  var sent := [Get(id), if ShowsNone(ins[0]) then Create(id) else Update(id, rev)];
                  && (Accepted(ins[1]) ==> o == Outcome(Holding(LeaseOf(ins[1])), sent))
                  && (Declined(ins[1]) ==> o == After(sent, AtRound(m, id, round + 1, ins[2..])))
                  && (ins[1].Failed? ==> o == Outcome(Idle, sent)))
            && (ins[0].Failed? ==> o == Outcome(Idle, [Get(id)]))
  {
    var p := Rechecking(HA(round), rev);
    if Shows(ins[0]) && ins[0].a.rev != rev {
      RoundEnds(m, id, round, p, [], ins);
    } else if |ins| >= 2 && (ShowsNone(ins[0]) || Shows(ins[0])) {
      var q := if ShowsNone(ins[0]) then Recreating(HA(round)) else Retaking(HA(round), rev);
      Unfold(m, id, p, q, ins);
      if Declined(ins[1]) {
        RoundEnds(m, id, round, q, [Get(id)], ins[1..]);
      }
    }
  }

  // An outsider's key that stood still through n polls, to the end of the watch, and once more.
  predicate StoodStill(m: Membership, id: Id, ins: seq<Input>, n: nat) {
    && |ins| >= n + 5 && Declined(ins[0]) && ShowsOutsider(m, id, ins[1])
    && (forall k :: 2 <= k < n + 2 ==> Still(ins[k], ins[1].a.rev) && !Due(ins[k], ins[1].at))
    && Still(ins[n + 2], ins[1].a.rev) && Due(ins[n + 2], ins[1].at)
    && Shows(ins[n + 3]) && ins[n + 3].a.rev == ins[1].a.rev
  }

  /** An outsider's key that stood still through n polls until a TTL and a poll had passed, and was
      still the same when looked at again, is taken: the guard is held at the revision that wrote over it. */
  lemma StaleKeyTaken(m: Membership, id: Id, round: nat, ins: seq<Input>, n: nat)
    requires StoodStill(m, id, ins, n) && Accepted(ins[n + 4])
    ensures Take(m, id, Creating(HA(round)), ins) ==
            Outcome(Holding(LeaseOf(ins[n + 4])),
                    [Create(id), Get(id)] + Polls(id, n + 2) + [Update(id, ins[1].a.rev)])
  {
    var rev, start := ins[1].a.rev, ins[1].at;
    OutsiderKeyWatched(m, id, round, ins);
    forall k | 0 <= k < n ensures Still(ins[2..][k], rev) && !Due(ins[2..][k], start) {
      assert ins[2..][k] == ins[k + 2];
    }
    WatchGoesOn(m, id, round, rev, start, ins[2..], n);
    WatchEnds(m, id, round, rev, start, ins[n + 2..]);
    StaleKeyRetaken(m, id, round, rev, ins[n + 3..]);
    assert ins[2..][n..] == ins[n + 2..] && ins[n + 2..][1..] == ins[n + 3..];
    assert [Create(id), Get(id)] + (Polls(id, n) + ([Get(id)] + [Get(id), Update(id, rev)]))
        == [Create(id), Get(id)] + Polls(id, n + 2) + [Update(id, rev)];
  }

  // The answers that settle createGuardKey's first attempt.
  lemma AnswersCreate(m: Membership, id: Id, ins: seq<Input>)
    ensures var o := Take(m, id, Creating(Plain), ins);
            && (ins != [] && Accepted(ins[0]) ==> o == Outcome(Holding(LeaseOf(ins[0])), [Create(id)]))
            && (|ins| >= 2 && Declined(ins[0]) && Shows(ins[1]) ==>
                  o == Outcome(if ShowsOwn(id, ins[1]) then Holding(LeaseOf(ins[1])) else Idle, [Create(id), Get(id)]))
  {
    if |ins| >= 2 && Declined(ins[0]) && Shows(ins[1]) {
      if ShowsOwn(id, ins[1]) {
        OwnKeyAdopted(m, id, Plain, ins);
      } else {
        OtherKeyRefused(m, id, ins);
      }
    }
  }

  // The answers that give an HA server the guard in its first round.
  lemma AnswersTake(m: Membership, id: Id, ins: seq<Input>)
    ensures var o := Take(m, id, Creating(HA(0)), ins);
            && (|ins| >= 2 && Declined(ins[0]) && ShowsOwn(id, ins[1]) ==>
                  o == Outcome(Holding(LeaseOf(ins[1])), [Create(id), Get(id)]))
            && (|ins| >= 3 && Declined(ins[0]) && ShowsMember(m, id, ins[1]) && Accepted(ins[2]) ==>
                  o == Outcome(Holding(LeaseOf(ins[2])), [Create(id), Get(id), Update(id, ins[1].a.rev)]))
            && (forall n: nat :: StoodStill(m, id, ins, n) && Accepted(ins[n + 4]) ==>
                  o == Outcome(Holding(LeaseOf(ins[n + 4])),
                               [Create(id), Get(id)] + Polls(id, n + 2) + [Update(id, ins[1].a.rev)]))
  {
    if |ins| >= 2 && Declined(ins[0]) && ShowsOwn(id, ins[1]) {
      OwnKeyAdopted(m, id, HA(0), ins);
    }
    if |ins| >= 3 && Declined(ins[0]) && ShowsMember(m, id, ins[1]) {
      MemberKeyOverwritten(m, id, 0, ins);
    }
    forall n: nat | StoodStill(m, id, ins, n) && Accepted(ins[n + 4])
      ensures Take(m, id, Creating(HA(0)), ins) ==
              Outcome(Holding(LeaseOf(ins[n + 4])),
                      [Create(id), Get(id)] + Polls(id, n + 2) + [Update(id, ins[1].a.rev)])
    {
      StaleKeyTaken(m, id, 0, ins, n);
    }
  }

  // ---- the answers after a refresh was declined ----

  // The stream's last sequence was read.
  predicate Counts(i: Input) {
    i.Answered? && i.a.Last?
  }

  // The key is another's, or gone with more written than revision rev.
  predicate Deposes(id: Id, rev: nat, ins: seq<Input>) {
    && ins != []
    && ((Shows(ins[0]) && !ShowsOwn(id, ins[0]))
        || (|ins| >= 2 && ShowsNone(ins[0]) && Counts(ins[1]) && ins[1].a.seqno != rev))
  }

  // The key shows this instance, or is gone with nothing written since rev and was created again.
  predicate Restores(id: Id, rev: nat, ins: seq<Input>) {
    && ins != []
    && (ShowsOwn(id, ins[0])
        || (|ins| >= 3 && ShowsNone(ins[0]) && Counts(ins[1]) && ins[1].a.seqno == rev && Accepted(ins[2])))
  }

  function Restored(id: Id, rev: nat, ins: seq<Input>): Lease
    requires Restores(id, rev, ins)
  {
    LeaseOf(if ShowsOwn(id, ins[0]) then ins[0] else ins[2])
  }
}

/**
  A run in which retakeExpired hides another server's tenure: server "b"
  creates and deletes the key between the last-sequence read and the create
  of "a"'s retake, and "a" holds a healthy guard again without ever hearing of it.
  And one in which a create that "a" had given up on gives it the key back after "b".
 */
module GuardExamples {
  import opened Common
  import opened KvBucket
  import opened GuardProtocol
  import opened GuardCustody
  import opened GuardTenure
  import opened GuardDeposed

  const NOBODY: Membership := (_: Id, _: Id, _: Time) => false

  lemma Grow(m: Membership, ws: seq<World>, a: Action) returns (ws': seq<World>)
    requires Run(m, ws) && Enabled(ws[|ws| - 1], a)
    ensures Run(m, ws') && |ws'| > 0 && ws'[|ws'| - 1] == Do(m, ws[|ws| - 1], a)
  {
    RunGrows(m, ws, a);
    ws' := ws + [Do(m, ws[|ws| - 1], a)];
  }

  const OWN: Write := Write("a", 0, Put, true, true)
  const T: Time := GUARD_TTL
  const L: Lease := Lease(1, 0)
  const GONE: Bucket := Bucket([OWN], true)

  predicate OnTime(log: seq<Write>) {
    forall i :: 0 <= i < |log| ==> log[i].awaited && log[i].prompt
  }

  // The run so far, and the world it has come to.
  ghost predicate Reaches(ws: seq<World>, w: World) {
    Run(NOBODY, ws) && ws[|ws| - 1] == w
  }

  // "a" acquires the guard ...
  lemma Started() returns (ws: seq<World>)
    ensures Reaches(ws, World(0, Bucket([], false), map[0 := Create("a")], map[], 1,
                              map["a" := Waiting(0, 0, Creating(Plain))], map[]))
  {
    ws := [Init()];
    ws := Grow(NOBODY, ws, Start("a", false));
    ws := Grow(NOBODY, ws, Retry("a"));
  }

  lemma Acquired() returns (ws: seq<World>)
    ensures Reaches(ws, World(0, Bucket([OWN], false), map[], map[0 := Done(1)], 1, map["a" := Holding(L)],
                              map["a" := 0]))
  {
    ws := Started();
    ws := Grow(NOBODY, ws, Handle(0));
    ws := Grow(NOBODY, ws, Deliver("a"));
  }

  // ... and its key expires.
  lemma KeyExpires() returns (ws: seq<World>)
    ensures Reaches(ws, World(T, GONE, map[], map[0 := Done(1)], 1, map["a" := Holding(L)], map["a" := T]))
  {
    ws := Acquired();
    ws := Grow(NOBODY, ws, Tick(T));
    ws := Grow(NOBODY, ws, Expire);
  }

  // "a" refreshes: the update is refused, ...
  lemma RefreshRefused() returns (ws: seq<World>)
    ensures Reaches(ws, World(T, GONE, map[2 := Get("a")], map[0 := Done(1), 1 := Refused], 3,
                              map["a" := Waiting(2, T, Reconciling(L))], map["a" := T]))
  {
    ws := KeyExpires();
    ws := Grow(NOBODY, ws, Refresh("a"));
    ws := Grow(NOBODY, ws, Handle(1));
    ws := Grow(NOBODY, ws, Deliver("a"));
  }

  // ... the key is missing, ...
  lemma KeyMissing() returns (ws: seq<World>)
    ensures Reaches(ws, World(T, GONE, map[3 := LastSeq("a")], map[0 := Done(1), 1 := Refused, 2 := Missing], 4,
                              map["a" := Waiting(3, T, Counting(L))], map["a" := T]))
  {
    ws := RefreshRefused();
    ws := Grow(NOBODY, ws, Handle(2));
    ws := Grow(NOBODY, ws, Deliver("a"));
  }

  const REPLIES: map<nat, Reply> := map[0 := Done(1), 1 := Refused, 2 := Missing, 3 := Last(1)]

  // ... and nothing was written since.
  lemma RetakeBegins() returns (ws: seq<World>)
    ensures Reaches(ws, World(T, GONE, map[4 := Create("a")], REPLIES, 5,
                              map["a" := Waiting(4, T, Recovering(L))], map["a" := T]))
  {
    ws := KeyMissing();
    ws := Grow(NOBODY, ws, Handle(3));
    ws := Grow(NOBODY, ws, Deliver("a"));
  }

  // "b" starts on the free account ...
  lemma OtherStarts() returns (ws: seq<World>)
    ensures Reaches(ws, World(T, GONE, map[4 := Create("a"), 5 := Create("b")], REPLIES, 6,
                              map["a" := Waiting(4, T, Recovering(L)), "b" := Waiting(5, T, Creating(Plain))],
                              map["a" := T]))
  {
    ws := RetakeBegins();
    ws := Grow(NOBODY, ws, Start("b", false));
    ws := Grow(NOBODY, ws, Retry("b"));
  }

  const TENURE: seq<Write> := [OWN, Write("b", T, Put, true, true), Write("b", T, Delete, true, true)]

  lemma OtherCreates() returns (ws: seq<World>)
    ensures Reaches(ws, World(T, Bucket(TENURE[..2], false), map[4 := Create("a")], REPLIES[5 := Done(2)], 6,
                              map["a" := Waiting(4, T, Recovering(L)), "b" := Waiting(5, T, Creating(Plain))],
                              map["a" := T, "b" := T]))
  {
    ws := OtherStarts();
    ws := Grow(NOBODY, ws, Handle(5));
    assert ws[|ws| - 1].Log() == TENURE[..2];
  }

  lemma OtherHolds() returns (ws: seq<World>)
    ensures Reaches(ws, World(T, Bucket(TENURE[..2], false), map[4 := Create("a")], REPLIES[5 := Done(2)], 6,
                              map["a" := Waiting(4, T, Recovering(L)), "b" := Holding(Lease(2, T))],
                              map["a" := T, "b" := T]))
  {
    ws := OtherCreates();
    ws := Grow(NOBODY, ws, Deliver("b"));
  }

  // ... and shuts down again.
  lemma OtherReleases() returns (ws: seq<World>)
    ensures Reaches(ws, World(T, Bucket(TENURE[..2], false), map[4 := Create("a"), 6 := Remove("b", 2)],
                              REPLIES[5 := Done(2)], 7,
                              map["a" := Waiting(4, T, Recovering(L)), "b" := Waiting(6, T, Deleting(2))],
                              map["a" := T, "b" := T]))
  {
    ws := OtherHolds();
    ws := Grow(NOBODY, ws, Release("b"));
  }

  lemma OtherGone() returns (ws: seq<World>)
    ensures Reaches(ws, World(T, Bucket(TENURE, false), map[4 := Create("a")], REPLIES[5 := Done(2)][6 := Done(3)], 7,
                              map["a" := Waiting(4, T, Recovering(L)), "b" := Waiting(6, T, Deleting(2))],
                              map["a" := T, "b" := T]))
  {
    ws := OtherReleases();
    ws := Grow(NOBODY, ws, Handle(6));
    assert ws[|ws| - 1].Log() == TENURE;
  }

  lemma RetakeLands() returns (ws: seq<World>)
    ensures Reaches(ws, World(T, Bucket(TENURE + [Write("a", T, Put, true, false)], false), map[],
                              REPLIES[5 := Done(2)][6 := Done(3)][4 := Done(4)], 7,
                              map["a" := Waiting(4, T, Recovering(L)), "b" := Waiting(6, T, Deleting(2))],
                              map["a" := T, "b" := T]))
  {
    ws := OtherGone();
    ws := Grow(NOBODY, ws, Handle(4));
    assert ws[|ws| - 1].Log() == TENURE + [Write("a", T, Put, true, false)];
  }

  /** The claim that a guard is lost whenever another server held the account since its last
      refresh fails when that tenure falls between the two requests of a retake. */
  lemma RetakeMayHideTenure() returns (ws: seq<World>)
    ensures Run(NOBODY, ws)
    ensures var w := ws[|ws| - 1];
            && |w.Log()| == 4 && (forall r :: !Unawaited(w, "a", r))
            && Held(w, "a", Lease(4, w.now)) && Healthy(w.now, false, Lease(4, w.now)) && Names(w, "a")
            && Author(w, 2) == "b" && Author(w, 3) == "b"
  {
    ws := RetakeLands();
    ws := Grow(NOBODY, ws, Deliver("a"));
  }

  // ---- a write that comes after its sender gave up on it ----

  // "a" gives its first create up, tries again ...
  lemma TriedAgain() returns (ws: seq<World>)
    ensures Reaches(ws, World(0, Bucket([], false), map[0 := Create("a"), 1 := Create("a")], map[], 2,
                              map["a" := Waiting(1, 0, Creating(Plain))], map[]))
  {
    ws := Started();
    ws := Grow(NOBODY, ws, GiveUp("a"));
    ws := Grow(NOBODY, ws, Retry("a"));
  }

  // ... and holds the guard, with the first create still on its way.
  lemma HeldWithCreateLeft() returns (ws: seq<World>)
    ensures Reaches(ws, World(0, Bucket([OWN], false), map[0 := Create("a")], map[1 := Done(1)], 2,
                              map["a" := Holding(L)], map["a" := 0]))
  {
    ws := TriedAgain();
    ws := Grow(NOBODY, ws, Handle(1));
    ws := Grow(NOBODY, ws, Deliver("a"));
  }

  // Its key expires and "b" creates the next ...
  lemma OtherAsks() returns (ws: seq<World>)
    ensures Reaches(ws, World(T, GONE, map[0 := Create("a"), 2 := Create("b")], map[1 := Done(1)], 3,
                              map["a" := Holding(L), "b" := Waiting(2, T, Creating(Plain))], map["a" := T]))
  {
    ws := HeldWithCreateLeft();
    ws := Grow(NOBODY, ws, Tick(T));
    ws := Grow(NOBODY, ws, Expire);
    ws := Grow(NOBODY, ws, Start("b", false));
    ws := Grow(NOBODY, ws, Retry("b"));
  }

  lemma OtherTakes() returns (ws: seq<World>)
    ensures Reaches(ws, World(T, Bucket(TENURE[..2], false), map[0 := Create("a")], map[1 := Done(1), 2 := Done(2)], 3,
                              map["a" := Holding(L), "b" := Waiting(2, T, Creating(Plain))], map["a" := T, "b" := T]))
  {
    ws := OtherAsks();
    ws := Grow(NOBODY, ws, Handle(2));
    assert ws[|ws| - 1].Log() == TENURE[..2];
  }

  // ... which expires too.
  lemma OtherExpires() returns (ws: seq<World>)
    ensures Reaches(ws, World(2 * T, Bucket(TENURE[..2], true), map[0 := Create("a")],
                              map[1 := Done(1), 2 := Done(2)], 3,
                              map["a" := Holding(L), "b" := Waiting(2, T, Creating(Plain))],
                              map["a" := T, "b" := 2 * T]))
  {
    ws := OtherTakes();
    ws := Grow(NOBODY, ws, Tick(T));
    ws := Grow(NOBODY, ws, Expire);
  }

  /** A deposed guard can get the key back without knowing when a create it gave up on is
      handled after the other server's tenure; every other write of this run is on time. */
  lemma LateCreateResurrects() returns (ws: seq<World>)
    ensures Run(NOBODY, ws)
    ensures var w := ws[|ws| - 1];
            && Held(w, "a", L) && Deposed(w, "a", L, 2) && Names(w, "a")
            && |w.Log()| == 3 && Unawaited(w, "a", 3) && w.Log()[2].prompt && OnTime(w.Log()[..2])
  {
    ws := OtherExpires();
    ws := Grow(NOBODY, ws, Handle(0));
    var w := ws[|ws| - 1];
    assert w.Log() == TENURE[..2] + [Write("a", 2 * T, Put, false, true)];
    assert Author(w, 2) == "b";
  }
}

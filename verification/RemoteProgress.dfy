/**
  What a standby's threads bring about, over whole runs: a promotion that does
  not fail leads until a shutdown, and only those that fail release their guard before one;
  the check's outcome is the one recorded; the callout is what was last asked for; and a
  shutdown stops the responder it finds attached.
 */
module RemoteProgress {
  import opened Common
  import opened RemoteState
  import opened RemoteMachine

  // ---- promotions ----

  // Before a shutdown, nothing is being closed, and no promotion has a guard to release.
  ghost predicate Undisturbed(w: World) {
    w.s.open ==> w.closings == map[] && forall t :: t in w.promos ==> w.promos[t].Running?
  }

  lemma UndisturbedNext(auth: bool, ws: seq<World>, i: nat)
    requires Run(auth, ws) && i + 1 < |ws| && OneLeader(ws[i]) && Undisturbed(ws[i])
    ensures Undisturbed(ws[i + 1]) && (ws[i + 1].s.open ==> ws[i].s.open)
  {
    var a := TakenStep(auth, ws, i);
  }

  lemma {:induction false} RunUndisturbed(auth: bool, ws: seq<World>, i: nat)
    requires Run(auth, ws) && i < |ws|
    ensures Undisturbed(ws[i])
  {
    if i > 0 {
      RunUndisturbed(auth, ws, i - 1);
      GuardConservation(auth, ws, i - 1);
      UndisturbedNext(auth, ws, i - 1);
    }
  }

  // At step i a promotion that has acquired g fails.
  ghost predicate FailsAt(ws: seq<World>, i: nat, t: nat, g: GuardRef)
    requires i + 1 < |ws|
  {
    t in ws[i].promos && ws[i].promos[t] == Running(Some(g), false) && ws[i + 1] == Do(ws[i], LeadFails(t))
  }

  ghost predicate Fails(ws: seq<World>, j: nat, g: GuardRef)
    requires j < |ws|
  {
    exists i, t :: 0 <= i < j && FailsAt(ws, i, t, g)
  }

  lemma ReleasedNext(auth: bool, ws: seq<World>, i: nat, g: GuardRef)
    requires Run(auth, ws) && i + 1 < |ws|
    ensures ws[i].released[g] <= ws[i + 1].released[g]
  {
    var a := TakenStep(auth, ws, i);
  }

  // Before a shutdown, only a failing promotion releases a guard.
  lemma ReleasingStep(auth: bool, ws: seq<World>, i: nat, g: GuardRef)
    requires Run(auth, ws) && i + 1 < |ws| && ws[i + 1].s.open && OneLeader(ws[i]) && Undisturbed(ws[i])
    requires ws[i].released[g] < ws[i + 1].released[g]
    ensures exists t :: FailsAt(ws, i, t, g)
  {
    UndisturbedNext(auth, ws, i);
    var a := TakenStep(auth, ws, i);
    assert a.LeadFails?;
    assert FailsAt(ws, i, a.t, g);
  }

  lemma {:induction false} StaysReleased(auth: bool, ws: seq<World>, i: nat, j: nat, g: GuardRef)
    requires Run(auth, ws) && i <= j < |ws|
    ensures ws[i].released[g] <= ws[j].released[g]
    decreases j
  {
    if i < j {
      StaysReleased(auth, ws, i, j - 1, g);
      ReleasedNext(auth, ws, j - 1, g);
    }
  }

  lemma {:induction false} ReleasedHasFailed(auth: bool, ws: seq<World>, j: nat, g: GuardRef)
    requires Run(auth, ws) && j < |ws| && ws[j].s.open && ws[j].released[g] > 0
    ensures Fails(ws, j, g)
  {
    if j > 0 {
      GuardConservation(auth, ws, j - 1);
      RunUndisturbed(auth, ws, j - 1);
      UndisturbedNext(auth, ws, j - 1);
      if ws[j - 1].released[g] > 0 {
        ReleasedHasFailed(auth, ws, j - 1, g);
        var i, t :| 0 <= i < j - 1 && FailsAt(ws, i, t, g);
      } else {
        ReleasingStep(auth, ws, j - 1, g);
      }
    }
  }

  /** Before a shutdown, a guard is released if and only if the promotion that acquired it failed;
      every other is stored, its server leading, or in the hands of the one promotion still running. */
  lemma ReleasedIffFailed(auth: bool, ws: seq<World>, j: nat, g: GuardRef)
    requires Run(auth, ws) && j < |ws| && ws[j].s.open && g in ws[j].acquired
    ensures ws[j].released[g] == (if Fails(ws, j, g) then 1 else 0)
    ensures !Fails(ws, j, g) ==>
              || (ws[j].s.guard == Some(g) && ws[j].s.leading)
              || exists t :: t in ws[j].promos && ws[j].promos[t] == Running(Some(g), false)
  {
    GuardConservation(auth, ws, j);
    RunUndisturbed(auth, ws, j);
    if Fails(ws, j, g) {
      var i, t :| 0 <= i < j && FailsAt(ws, i, t, g);
      StaysReleased(auth, ws, i + 1, j, g);
    } else {
      if ws[j].released[g] > 0 {
        ReleasedHasFailed(auth, ws, j, g);
      }
      var h :| Keeps(ws[j], h, g);
    }
  }

  lemma StoredNext(auth: bool, ws: seq<World>, i: nat)
    requires Run(auth, ws) && i + 1 < |ws| && OneLeader(ws[i]) && ws[i].s.guard.Some? && ws[i + 1].s.open
    ensures ws[i + 1].s.guard == ws[i].s.guard
  {
    var a := TakenStep(auth, ws, i);
  }

  /** A promotion that acquired g, did not fail, and finished at step i on an open server leads from
      then on: g is stored, not released, and the server leading, in every world until a shutdown. */
  lemma {:induction false} PromotionStands(auth: bool, ws: seq<World>, i: nat, j: nat, t: nat, g: GuardRef)
    requires Run(auth, ws) && i < j < |ws| && ws[i].s.open && ws[j].s.open
    requires t in ws[i].promos && ws[i].promos[t] == Running(Some(g), false)
    requires ws[i + 1] == Do(ws[i], FinishPromotion(t))
    ensures ws[j].s.guard == Some(g) && ws[j].s.leading && ws[j].released[g] == 0
    decreases j
  {
    if j == i + 1 {
    } else {
      GuardConservation(auth, ws, j - 1);
      RunUndisturbed(auth, ws, j - 1);
      UndisturbedNext(auth, ws, j - 1);
      PromotionStands(auth, ws, i, j - 1, t, g);
      StoredNext(auth, ws, j - 1);
    }
    GuardConservation(auth, ws, j);
    assert Keeps(ws[j], AtRemote, g);
  }

  // A promotion is under way.
  ghost predicate Promoting(w: World) {
    exists t :: t in w.promos && w.promos[t].Running?
  }

  ghost predicate LeadsOrPromotes(w: World) {
    w.s.leading <==> w.s.guard.Some? || Promoting(w)
  }

  // The one promotion that runs ends: it fails and the standby is free, or its guard is stored.
  lemma LeadingFinish(w: World, t: nat)
    requires OneLeader(w) && w.s.open && Enabled(w, FinishPromotion(t))
    ensures LeadsOrPromotes(Do(w, FinishPromotion(t)))
  {
    assert !Promoting(Do(w, FinishPromotion(t)));
  }

  lemma LeadingPromotion(w: World, a: Action)
    requires w.s.open && LeadsOrPromotes(w) && Enabled(w, a) && (a.Promote? || a.Acquire? || a.LeadFails?)
    ensures LeadsOrPromotes(Do(w, a))
  {
    var w' := Do(w, a);
    if w'.promos != w.promos {
      assert a.t in w'.promos && w'.promos[a.t].Running?;
    } else {
      assert w' == w;
    }
  }

  lemma LeadingOther(w: World, a: Action)
    requires w.s.open && LeadsOrPromotes(w) && Enabled(w, a) && !Promotes(a) && Do(w, a).s.open
    ensures LeadsOrPromotes(Do(w, a))
  {
    var w' := Do(w, a);
    assert w'.promos == w.promos && w'.s.leading == w.s.leading && w'.s.guard == w.s.guard;
  }

  lemma LeadingNext(auth: bool, ws: seq<World>, i: nat)
    requires Run(auth, ws) && i + 1 < |ws| && OneLeader(ws[i]) && Undisturbed(ws[i])
    requires ws[i + 1].s.open && ws[i].s.open && LeadsOrPromotes(ws[i])
    ensures LeadsOrPromotes(ws[i + 1])
  {
    var a := TakenStep(auth, ws, i);
    if a.FinishPromotion? {
      LeadingFinish(ws[i], a.t);
    } else if Promotes(a) {
      LeadingPromotion(ws[i], a);
    } else {
      LeadingOther(ws[i], a);
    }
  }

  /** Before a shutdown a server counts as leading exactly while a promotion is under way or its
      guard is stored: one that failed leaves the standby free to be promoted again. */
  lemma {:induction false} LeadingIff(auth: bool, ws: seq<World>, j: nat)
    requires Run(auth, ws) && j < |ws| && ws[j].s.open
    ensures LeadsOrPromotes(ws[j])
  {
    if j > 0 {
      GuardConservation(auth, ws, j - 1);
      RunUndisturbed(auth, ws, j - 1);
      UndisturbedNext(auth, ws, j - 1);
      LeadingIff(auth, ws, j - 1);
      LeadingNext(auth, ws, j - 1);
    }
  }

  // A standby whose check passed can be promoted, and then leads with the guard it acquired.
  lemma StandbyLeads(auth: bool, ws: seq<World>, w: World, t: nat, g: GuardRef) returns (ws': seq<World>)
    requires Run(auth, ws) && w == ws[|ws| - 1] && w.s.open && !w.s.leading && w.s.check.Passed?
    requires t !in w.promos && g !in w.acquired
    ensures Run(auth, ws')
    ensures var w' := ws'[|ws'| - 1]; w'.s.guard == Some(g) && w'.s.leading && g in w'.acquired && w'.released[g] == 0
  {
    GuardConservation(auth, ws, |ws| - 1);
    assert g !in w.released;
    ws' := Grow(auth, ws, Promote(t, true));
    ws' := Grow(auth, ws', Acquire(t, g));
    ws' := Grow(auth, ws', FinishPromotion(t));
  }

  // ---- the check ----

  // At step i the check passes.
  predicate PassesAt(ws: seq<World>, i: nat)
    requires i + 1 < |ws|
  {
    ws[i].checker.Checking? && ws[i + 1].checker.Passing?
  }

  ghost predicate Passes(ws: seq<World>, j: nat)
    requires j < |ws|
  {
    exists i :: 0 <= i < j && PassesAt(ws, i)
  }

  // The check has passed, recorded or not.
  predicate HasPassed(w: World) {
    || w.checker.Passing? || w.checker.Entering? || w.checker.Opening? || w.checker == Recording(Passed)
    || w.s.check.Passed?
  }

  lemma HasPassedNext(auth: bool, ws: seq<World>, i: nat)
    requires Run(auth, ws) && i + 1 < |ws| && CalloutOk(auth, ws[i])
    ensures HasPassed(ws[i + 1]) <==> HasPassed(ws[i]) || PassesAt(ws, i)
    ensures ws[i].s.calloutOpen == (HasPassed(ws[i]) && !ws[i].checker.Passing? && !ws[i].checker.Entering?) ==>
              ws[i + 1].s.calloutOpen ==
              (HasPassed(ws[i + 1]) && !ws[i + 1].checker.Passing? && !ws[i + 1].checker.Entering?)
  {
    var a := TakenStep(auth, ws, i);
    if Promotes(a) || ShutsDown(a) {
      LeaderFrame(ws[i], a);
    }
  }

  lemma {:induction false} RunHasPassed(auth: bool, ws: seq<World>, j: nat)
    requires Run(auth, ws) && j < |ws|
    ensures HasPassed(ws[j]) <==> Passes(ws, j)
    ensures ws[j].s.calloutOpen <==> HasPassed(ws[j]) && !ws[j].checker.Passing? && !ws[j].checker.Entering?
  {
    if j > 0 {
      RunHasPassed(auth, ws, j - 1);
      RunCallout(auth, ws, j - 1);
      HasPassedNext(auth, ws, j - 1);
      if Passes(ws, j - 1) {
        var i :| 0 <= i < j - 1 && PassesAt(ws, i);
        assert PassesAt(ws, i) && i < j;
      } else if PassesAt(ws, j - 1) {
        assert Passes(ws, j);
      } else {
        assert !Passes(ws, j);
      }
    }
  }

  /** Once a check's outcome is recorded, it is that of the check: passed, with the callout open,
      exactly when the check passed, and refused exactly when it did not. */
  lemma CheckIsRecorded(auth: bool, ws: seq<World>, j: nat)
    requires Run(auth, ws) && j < |ws| && !ws[j].s.check.Unchecked?
    ensures ws[j].s.check == if Passes(ws, j) then Passed else Refused
    ensures ws[j].s.calloutOpen <==> Passes(ws, j)
  {
    RunHasPassed(auth, ws, j);
    RunCallout(auth, ws, j);
  }

  // A standby whose check passes serves when worker authentication is on, and may lead.
  lemma StandbyReady(auth: bool) returns (ws: seq<World>)
    ensures Run(auth, ws)
    ensures var w := ws[|ws| - 1];
            w.s.open && !w.s.leading && w.s.check.Passed? && w.lock.Free? && w.r.serving == auth && !w.faults
  {
    ws := [Init(auth)];
    ws := Grow(auth, ws, CheckEnds(true));
    ws := Grow(auth, ws, EnterOpen);
    ws := Grow(auth, ws, ReadOpen);
    ws := Grow(auth, ws, ActOpen(true));
    ws := Grow(auth, ws, RecordCheck);
  }

  // ---- the callout ----

  // At step i setter t writes what it asks for.
  predicate WritesAt(ws: seq<World>, i: nat, t: nat)
    requires i + 1 < |ws|
  {
    t in ws[i].setters && ws[i].setters[t].Entered? && t in ws[i + 1].setters && ws[i + 1].setters[t].Acting?
  }

  ghost predicate Writes(ws: seq<World>, i: nat)
    requires i + 1 < |ws|
  {
    exists t :: WritesAt(ws, i, t)
  }

  // What the calls of SetCalloutActive last asked for; a standby starts out active.
  ghost function LastAsked(ws: seq<World>, j: nat): bool
    requires j < |ws|
  {
    if j == 0 then true
    else
      var i: nat := j - 1;
      if Writes(ws, i) then var t :| WritesAt(ws, i, t); ws[i].setters[t].active else LastAsked(ws, i)
  }

  lemma WantedNext(auth: bool, ws: seq<World>, i: nat)
    requires Run(auth, ws) && i + 1 < |ws|
    ensures forall t :: WritesAt(ws, i, t) ==> ws[i + 1].s.calloutWanted == ws[i].setters[t].active
    ensures !Writes(ws, i) ==> ws[i + 1].s.calloutWanted == ws[i].s.calloutWanted
  {
    var a := TakenStep(auth, ws, i);
    if a.WriteSet? {
      assert WritesAt(ws, i, a.t);
    }
  }

  lemma {:induction false} WantedIsLastAsked(auth: bool, ws: seq<World>, j: nat)
    requires Run(auth, ws) && j < |ws|
    ensures ws[j].s.calloutWanted == LastAsked(ws, j)
  {
    if j > 0 {
      WantedIsLastAsked(auth, ws, j - 1);
      WantedNext(auth, ws, j - 1);
    }
  }

  /** Until a shutdown begins, and unless a subscription failed, whenever nobody is inside the callout's
      lock, the responder serves if and only if worker authentication is on, the check
      has opened the callout, and being active is what was last asked for. */
  lemma ServesIff(auth: bool, ws: seq<World>, j: nat)
    requires Run(auth, ws) && j < |ws| && ws[j].lock.Free? && ws[j].s.open && !ws[j].faults
    ensures ws[j].r.serving <==> auth && Passes(ws, j) && !ws[j].checker.Passing? && LastAsked(ws, j)
  {
    RunCallout(auth, ws, j);
    RunHasPassed(auth, ws, j);
    WantedIsLastAsked(auth, ws, j);
    CalloutAgreement(auth, ws, j);
  }

  // A call of SetCalloutActive that finds the lock free goes through.
  lemma CalloutIsSet(auth: bool, ws: seq<World>, w: World, t: nat, active: bool) returns (ws': seq<World>)
    requires Run(auth, ws) && w == ws[|ws| - 1] && w.lock.Free? && t !in w.setters
    ensures Run(auth, ws')
    ensures var w' := ws'[|ws'| - 1];
            && w'.s == w.s.(calloutWanted := active) && w'.lock.Free? && t !in w'.setters
            && w'.faults == w.faults && w'.checker == w.checker
  {
    ws' := Grow(auth, ws, SetCallout(t, active));
    ws' := Grow(auth, ws', EnterSet(t));
    ws' := Grow(auth, ws', WriteSet(t));
    ws' := Grow(auth, ws', ActSet(t, true));
  }

  // ---- shutdown ----

  // The responder, once attached on an open server, is stopped, or a shutdown is about to stop it.
  ghost predicate WillStop(w: World) {
    && w.r.attached
    && (w.s.open || w.r.stopped || exists t :: t in w.closings && w.closings[t] == Taken(true, w.closings[t].held))
  }

  lemma WillStopNext(auth: bool, ws: seq<World>, i: nat)
    requires Run(auth, ws) && i + 1 < |ws| && WillStop(ws[i]) && CalloutOk(auth, ws[i])
    ensures WillStop(ws[i + 1])
  {
    var w, w' := ws[i], ws[i + 1];
    var a := TakenStep(auth, ws, i);
    if !w.s.open && !w.r.stopped {
      var t :| t in w.closings && w.closings[t] == Taken(true, w.closings[t].held);
      if !w'.r.stopped {
        assert t in w'.closings && w'.closings[t] == w.closings[t];
      }
    } else if w.s.open && !w'.s.open {
      assert a.t in w'.closings && w'.closings[a.t] == Taken(true, w'.closings[a.t].held);
    }
  }

  lemma {:induction false} RunWillStop(auth: bool, ws: seq<World>, i: nat, j: nat)
    requires Run(auth, ws) && i <= j < |ws| && ws[i].s.open && ws[i].r.attached
    ensures WillStop(ws[j])
    decreases j
  {
    if i < j {
      RunWillStop(auth, ws, i, j - 1);
      RunCallout(auth, ws, j - 1);
      WillStopNext(auth, ws, j - 1);
    }
  }

  /** A responder that was attached before a shutdown is stopped, and does not serve, once the
      shutdowns are through. */
  lemma ShutdownStops(auth: bool, ws: seq<World>, i: nat, j: nat)
    requires Run(auth, ws) && i <= j < |ws| && ws[i].s.open && ws[i].r.attached
    requires !ws[j].s.open && ws[j].closings == map[]
    ensures ws[j].r.stopped && !ws[j].r.serving
  {
    RunWillStop(auth, ws, i, j);
    RunTakenWhole(auth, ws, j);
  }
}

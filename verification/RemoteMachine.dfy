/**
  A standby's threads, interleaved section by section: promotions
  (TakeLeadership), shutdowns, the broker check that opens the callout, and
  calls of SetCalloutActive, any number of each but the check. What they
  conserve are the guards; what they agree on is whether the responder answers.
 */
module RemoteMachine {
  import opened Common
  import opened RemoteState

  // A promotion under way, with the guard it has acquired, or one that failed and has a guard to release.
  datatype Promotion = Running(held: Option<GuardRef>, failed: bool) | Releasing(g: GuardRef)

  // A shutdown that has taken Remote's connections: before and after it stops the responder.
  datatype Closing = Taken(responder: bool, held: Option<GuardRef>) | Stopped(held: Option<GuardRef>)

  // A call of SetCalloutActive: waiting for calloutMu, holding it, and about to pause or resume.
  datatype Setter = Queued(active: bool) | Entered(active: bool) | Acting(active: bool, act: bool)

  // The standby check: passStandbyCheck opens the callout and then records the outcome.
  datatype Checker =
    | Checking
    | Passing
    | Entering
    | Opening(responder: bool, wanted: bool)
    | Recording(o: Outcome)
    | Over

  // Who holds calloutMu.
  datatype Lock = Free | ByCheck | BySetter(t: nat)

  datatype World = World(s: Shared, r: Resp, lock: Lock, checker: Checker,
                         promos: map<nat, Promotion>, closings: map<nat, Closing>, setters: map<nat, Setter>,
                         acquired: set<GuardRef>, released: multiset<GuardRef>, faults: bool)

  function Init(auth: bool): World {
    World(Standby(auth), IDLE_RESPONDER, Free, Checking, map[], map[], map[], {}, multiset{}, false)
  }

  datatype Action =
    | Promote(t: nat, connected: bool)
    | Acquire(t: nat, g: GuardRef)
    | LeadFails(t: nat)
    | FinishPromotion(t: nat)
    | ReleaseFailed(t: nat)
    | Shutdown(t: nat)
    | StopResponder(t: nat)
    | ReleaseHeld(t: nat)
    | CheckEnds(pass: bool)
    | CheckCancelled
    | EnterOpen
    | ReadOpen
    | ActOpen(subscribes: bool)
    | RecordCheck
    | SetCallout(t: nat, active: bool)
    | EnterSet(t: nat)
    | WriteSet(t: nat)
    | ActSet(t: nat, subscribes: bool)

  predicate Promotes(a: Action) {
    a.Promote? || a.Acquire? || a.LeadFails? || a.FinishPromotion? || a.ReleaseFailed?
  }

  predicate ShutsDown(a: Action) {
    a.Shutdown? || a.StopResponder? || a.ReleaseHeld?
  }

  predicate SetsCallout(a: Action) {
    a.SetCallout? || a.EnterSet? || a.WriteSet? || a.ActSet?
  }

  predicate Enabled(w: World, a: Action) {
    match a
    case Promote(t, _) => t !in w.promos
    case Acquire(t, g) => t in w.promos && w.promos[t] == Running(None, false) && g !in w.acquired
    case LeadFails(t) => t in w.promos && w.promos[t].Running? && !w.promos[t].failed
    case FinishPromotion(t) => t in w.promos && w.promos[t].Running? && (w.promos[t].failed || w.promos[t].held.Some?)
    case ReleaseFailed(t) => t in w.promos && w.promos[t].Releasing?
    case Shutdown(t) => t !in w.closings
    case StopResponder(t) => t in w.closings && w.closings[t].Taken?
    case ReleaseHeld(t) => t in w.closings && w.closings[t].Stopped?
    case CheckEnds(_) => w.checker.Checking?
    case CheckCancelled => w.checker.Checking?
    case EnterOpen => w.checker.Passing? && w.lock.Free?
    case ReadOpen => w.checker.Entering?
    case ActOpen(_) => w.checker.Opening?
    case RecordCheck => w.checker.Recording?
    case SetCallout(t, _) => t !in w.setters
    case EnterSet(t) => t in w.setters && w.setters[t].Queued? && w.lock.Free?
    case WriteSet(t) => t in w.setters && w.setters[t].Entered?
    case ActSet(t, _) => t in w.setters && w.setters[t].Acting?
  }

  function Released(w: World, g: Option<GuardRef>): World {
    if g.Some? then w.(released := w.released + multiset{g.value}) else w
  }

  function Do(w: World, a: Action): World
    requires Enabled(w, a)
  {
    match a
    case Promote(t, connected) =>
      var (ok, s) := Begin(w.s, connected);
      if ok then w.(s := s, promos := w.promos[t := Running(None, false)]) else w
    case Acquire(t, g) =>
      w.(acquired := w.acquired + {g}, promos := w.promos[t := Running(Some(g), false)])
    case LeadFails(t) =>
      Released(w.(promos := w.promos[t := Running(None, true)]), w.promos[t].held)
    case FinishPromotion(t) =>
      var (s, g) := Finish(w.s, w.promos[t].failed, w.promos[t].held);
      if g.Some? then w.(s := s, promos := w.promos[t := Releasing(g.value)])
      else w.(s := s, promos := w.promos - {t})
    case ReleaseFailed(t) =>
      Released(w.(promos := w.promos - {t}), Some(w.promos[t].g))
    case Shutdown(t) =>
      var (s, responder, g) := TakeAll(w.s);
      w.(s := s, closings := w.closings[t := Taken(responder, g)])
    case StopResponder(t) =>
      var c := w.closings[t];
      w.(r := if c.responder then Stop(w.r) else w.r, closings := w.closings[t := Stopped(c.held)])
    case ReleaseHeld(t) =>
      Released(w.(closings := w.closings - {t}), w.closings[t].held)
    case CheckEnds(pass) => w.(checker := if pass then Passing else Recording(Refused))
    case CheckCancelled => w.(checker := Over)
    case EnterOpen => w.(lock := ByCheck, checker := Entering)
    case ReadOpen =>
      w.(s := w.s.(calloutOpen := true), checker := Opening(w.s.answering, w.s.calloutWanted))
    case ActOpen(subscribes) =>
      var c := w.checker;
      var r := if !c.responder then w.r else if c.wanted then Listen(w.r, subscribes) else Attach(w.r);
      w.(r := r, lock := Free, checker := Recording(Passed), faults := w.faults || !subscribes)
    case RecordCheck => w.(s := FinishCheck(w.s, w.checker.o), checker := Over)
    case SetCallout(t, active) => w.(setters := w.setters[t := Queued(active)])
    case EnterSet(t) => w.(lock := BySetter(t), setters := w.setters[t := Entered(w.setters[t].active)])
    case WriteSet(t) =>
      var active := w.setters[t].active;
      w.(s := w.s.(calloutWanted := active),
         setters := w.setters[t := Acting(active, w.s.answering && w.s.calloutOpen)])
    case ActSet(t, subscribes) =>
      var c := w.setters[t];
      var r := if !c.act then w.r else if c.active then Resume(w.r, subscribes) else Pause(w.r);
      w.(r := r, lock := Free, setters := w.setters - {t}, faults := w.faults || !subscribes)
  }

  // World i leads to the next by one action.
  ghost predicate Step(ws: seq<World>, i: nat)
    requires i + 1 < |ws|
  {
    exists a :: Enabled(ws[i], a) && ws[i + 1] == Do(ws[i], a)
  }

  ghost predicate Run(auth: bool, ws: seq<World>) {
    && |ws| > 0
    && ws[0] == Init(auth)
    && forall i :: 0 <= i < |ws| - 1 ==> Step(ws, i)
  }

  // ---- guard conservation ----

  datatype Home = AtRemote | AtPromotion(t: nat) | AtShutdown(t: nat)

  // Where a guard that is not released is.
  ghost predicate Keeps(w: World, h: Home, g: GuardRef) {
    match h
    case AtRemote => w.s.guard == Some(g)
    case AtPromotion(t) =>
      && t in w.promos
      && (w.promos[t] == Releasing(g) || (w.promos[t].Running? && w.promos[t].held == Some(g)))
    case AtShutdown(t) => t in w.closings && w.closings[t].held == Some(g)
  }

  /** Every guard acquired is in exactly one place, or released exactly once; and nothing else is
      anywhere. */
  ghost predicate Conserved(w: World) {
    && (forall g, h :: Keeps(w, h, g) ==> g in w.acquired && w.released[g] == 0)
    && (forall g, h, h' :: Keeps(w, h, g) && Keeps(w, h', g) ==> h == h')
    && (forall g :: g in w.acquired && w.released[g] == 0 ==> exists h :: Keeps(w, h, g))
    && (forall g :: w.released[g] <= 1)
    && (forall g :: g in w.released ==> g in w.acquired)
  }

  // At most one promotion runs, none beside a stored guard, and neither without passed checks.
  ghost predicate OneLeader(w: World) {
    && (forall t, u :: t in w.promos && u in w.promos && w.promos[t].Running? && w.promos[u].Running? ==> t == u)
    && (forall t :: t in w.promos && w.promos[t].Running? ==>
          w.s.leading && w.s.guard.None? && w.s.check.Passed? && !(w.promos[t].failed && w.promos[t].held.Some?))
    && (w.s.guard.Some? ==> w.s.open && w.s.leading && w.s.check.Passed?)
  }

  // No guard changes place, is acquired or released.
  lemma StillConserved(w: World, w': World)
    requires Conserved(w) && w'.acquired == w.acquired && w'.released == w.released
    requires forall h, x: GuardRef :: Keeps(w', h, x) <==> Keeps(w, h, x)
    ensures Conserved(w')
  {
    forall x | x in w'.acquired && w'.released[x] == 0 ensures exists h :: Keeps(w', h, x) {
      var h :| Keeps(w, h, x);
      assert Keeps(w', h, x);
    }
  }

  // One guard moves from one place to another.
  lemma MoveConserves(w: World, w': World, from: Home, to: Home, g: GuardRef)
    requires Conserved(w) && Keeps(w, from, g) && w'.acquired == w.acquired && w'.released == w.released
    requires forall h, x: GuardRef :: Keeps(w', h, x) <==> (Keeps(w, h, x) && (h, x) != (from, g)) || (h, x) == (to, g)
    ensures Conserved(w')
  {
    forall x | x in w'.acquired && w'.released[x] == 0 ensures exists h :: Keeps(w', h, x) {
      var h :| Keeps(w, h, x);
      assert Keeps(w', if x == g then to else h, x);
    }
  }

  // One guard is released from where it is.
  lemma ReleaseConserves(w: World, w': World, from: Home, g: GuardRef)
    requires Conserved(w) && Keeps(w, from, g) && w'.acquired == w.acquired && w'.released == w.released + multiset{g}
    requires forall h, x: GuardRef :: Keeps(w', h, x) <==> Keeps(w, h, x) && (h, x) != (from, g)
    ensures Conserved(w')
  {
    forall x | x in w'.acquired && w'.released[x] == 0 ensures exists h :: Keeps(w', h, x) {
      var h :| Keeps(w, h, x);
      assert Keeps(w', h, x);
    }
  }

  lemma AcquireConserves(w: World, w': World, to: Home, g: GuardRef)
    requires Conserved(w) && g !in w.acquired && w'.acquired == w.acquired + {g} && w'.released == w.released
    requires forall h, x: GuardRef :: Keeps(w', h, x) <==> Keeps(w, h, x) || (h, x) == (to, g)
    ensures Conserved(w')
  {
    forall x | x in w'.acquired && w'.released[x] == 0 ensures exists h :: Keeps(w', h, x) {
      if x == g {
        assert Keeps(w', to, x);
      } else {
        var h :| Keeps(w, h, x);
        assert Keeps(w', h, x);
      }
    }
  }

  lemma LeadFailsConserves(w: World, t: nat)
    requires Conserved(w) && Enabled(w, LeadFails(t))
    ensures Conserved(Do(w, LeadFails(t)))
  {
    var w' := Do(w, LeadFails(t));
    match w.promos[t].held
    case None => StillConserved(w, w');
    case Some(g) =>
      assert Keeps(w, AtPromotion(t), g);
      ReleaseConserves(w, w', AtPromotion(t), g);
  }

  lemma FinishConserves(w: World, t: nat)
    requires Conserved(w) && OneLeader(w) && Enabled(w, FinishPromotion(t))
    ensures Conserved(Do(w, FinishPromotion(t)))
  {
    var w' := Do(w, FinishPromotion(t));
    if w.promos[t].failed {
      StillConserved(w, w');
    } else {
      var g := w.promos[t].held.value;
      assert Keeps(w, AtPromotion(t), g);
      MoveConserves(w, w', AtPromotion(t), if w.s.open then AtRemote else AtPromotion(t), g);
    }
  }

  lemma PromotionConserves(w: World, a: Action)
    requires Conserved(w) && OneLeader(w) && Enabled(w, a)
    requires Promotes(a)
    ensures Conserved(Do(w, a))
  {
    var w' := Do(w, a);
    match a
    case Promote(_, _) => StillConserved(w, w');
    case Acquire(t, g) => AcquireConserves(w, w', AtPromotion(t), g);
    case LeadFails(t) => LeadFailsConserves(w, t);
    case FinishPromotion(t) => FinishConserves(w, t);
    case ReleaseFailed(t) =>
      assert Keeps(w, AtPromotion(t), w.promos[t].g);
      ReleaseConserves(w, w', AtPromotion(t), w.promos[t].g);
  }

  lemma TakeConserves(w: World, t: nat)
    requires Conserved(w) && Enabled(w, Shutdown(t))
    ensures Conserved(Do(w, Shutdown(t)))
  {
    var w' := Do(w, Shutdown(t));
    match w.s.guard
    case None => StillConserved(w, w');
    case Some(g) =>
      assert Keeps(w, AtRemote, g);
      MoveConserves(w, w', AtRemote, AtShutdown(t), g);
  }

  lemma ReleaseHeldConserves(w: World, t: nat)
    requires Conserved(w) && Enabled(w, ReleaseHeld(t))
    ensures Conserved(Do(w, ReleaseHeld(t)))
  {
    var w' := Do(w, ReleaseHeld(t));
    match w.closings[t].held
    case None => StillConserved(w, w');
    case Some(g) =>
      assert Keeps(w, AtShutdown(t), g);
      ReleaseConserves(w, w', AtShutdown(t), g);
  }

  lemma ShutdownConserves(w: World, a: Action)
    requires Conserved(w) && Enabled(w, a) && ShutsDown(a)
    ensures Conserved(Do(w, a))
  {
    match a
    case Shutdown(t) => TakeConserves(w, t);
    case StopResponder(_) => StillConserved(w, Do(w, a));
    case ReleaseHeld(t) => ReleaseHeldConserves(w, t);
  }

  lemma CalloutConserves(w: World, a: Action)
    requires Conserved(w) && Enabled(w, a)
    requires !Promotes(a) && !ShutsDown(a)
    ensures Conserved(Do(w, a))
  {
    StillConserved(w, Do(w, a));
  }

  lemma StepConserves(w: World, a: Action)
    requires Conserved(w) && OneLeader(w) && Enabled(w, a)
    ensures Conserved(Do(w, a)) && OneLeader(Do(w, a))
  {
    if Promotes(a) {
      PromotionConserves(w, a);
      PromotionOneLeader(w, a);
    } else {
      OtherOneLeader(w, a);
      if ShutsDown(a) {
        ShutdownConserves(w, a);
      } else {
        CalloutConserves(w, a);
      }
    }
  }

  lemma PromotionOneLeader(w: World, a: Action)
    requires OneLeader(w) && Enabled(w, a) && Promotes(a)
    ensures OneLeader(Do(w, a))
  {
  }

  lemma OtherOneLeader(w: World, a: Action)
    requires OneLeader(w) && Enabled(w, a) && !Promotes(a)
    ensures OneLeader(Do(w, a))
  {
  }

  /** Guard conservation: at every point of every interleaving of promotions, their failures
      and shutdowns, each guard acquired is stored, about to be released by one thread, or
      released exactly once; at most one promotion runs; and a guard is held only once the checks passed. */
  lemma {:induction false} GuardConservation(auth: bool, ws: seq<World>, i: nat)
    requires Run(auth, ws) && i < |ws|
    ensures Conserved(ws[i]) && OneLeader(ws[i])
  {
    if i > 0 {
      GuardConservation(auth, ws, i - 1);
      ConservedNext(auth, ws, i - 1);
    }
  }

  lemma ConservedNext(auth: bool, ws: seq<World>, i: nat)
    requires Run(auth, ws) && i + 1 < |ws| && Conserved(ws[i]) && OneLeader(ws[i])
    ensures Conserved(ws[i + 1]) && OneLeader(ws[i + 1])
  {
    var a := TakenStep(auth, ws, i);
    StepConserves(ws[i], a);
  }

  // A run goes on with any enabled action.
  lemma RunGrows(auth: bool, ws: seq<World>, a: Action)
    requires Run(auth, ws) && Enabled(ws[|ws| - 1], a)
    ensures Run(auth, ws + [Do(ws[|ws| - 1], a)])
  {
    var ws' := ws + [Do(ws[|ws| - 1], a)];
    forall i | 0 <= i < |ws'| - 1 ensures Step(ws', i) {
      var b := a;
      if i < |ws| - 1 {
        b := TakenStep(auth, ws, i);
      }
      assert Enabled(ws'[i], b) && ws'[i + 1] == Do(ws'[i], b);
    }
  }

  lemma TakenStep(auth: bool, ws: seq<World>, i: nat) returns (a: Action)
    requires Run(auth, ws) && i + 1 < |ws|
    ensures Enabled(ws[i], a) && ws[i + 1] == Do(ws[i], a)
  {
    assert Step(ws, i);
    a :| Enabled(ws[i], a) && ws[i + 1] == Do(ws[i], a);
  }

  /** Once a shutdown has been through and no promotion or shutdown is under way, nothing is
      held: every guard the server ever acquired was released, each exactly once. */
  lemma NothingHeldAfterShutdown(auth: bool, ws: seq<World>, i: nat, g: GuardRef)
    requires Run(auth, ws) && i < |ws| && !ws[i].s.open && ws[i].promos == map[] && ws[i].closings == map[]
    requires g in ws[i].acquired
    ensures ws[i].released[g] == 1
  {
    GuardConservation(auth, ws, i);
    assert forall h :: !Keeps(ws[i], h, g);
  }

  // ---- callout agreement ----

  predicate Opened(c: Checker) {
    c.Opening? || (c.Recording? && c.o.Passed?) || c.Over?
  }

  ghost predicate CalloutOk(auth: bool, w: World) {
    // calloutMu is held by exactly the thread inside.
    && (w.lock.ByCheck? <==> w.checker.Entering? || w.checker.Opening?)
    && (forall t :: t in w.setters ==> (w.lock == BySetter(t) <==> !w.setters[t].Queued?))
    && (w.lock.BySetter? ==> w.lock.t in w.setters)
    // The check's outcome is recorded once.
    && (w.s.check.Unchecked? <==> w.s.closes == 0)
    && w.s.closes <= 1
    && (!w.s.check.Unchecked? ==> w.checker.Over?)
    && (w.checker.Recording? ==> !w.checker.o.Unchecked?)
    // The callout is open only once the checks passed, and the responder serves only then.
    && (w.s.calloutOpen ==> Opened(w.checker) && !w.s.check.Refused?)
    && (w.s.calloutOpen && w.checker.Over? ==> w.s.check.Passed?)
    && (w.checker.Opening? ==> w.s.calloutOpen)
    && (w.r.serving ==> w.r.attached)
    && (w.r.attached ==> w.s.calloutOpen && auth && !w.checker.Opening?)
    && (w.s.open ==> w.s.answering == auth)
    && (w.s.answering || (w.checker.Opening? && w.checker.responder) ==> auth)
  }

  ghost predicate Agrees(auth: bool, w: World) {
    w.r.serving <==> auth && w.s.calloutOpen && w.s.calloutWanted
  }

  // Before a shutdown, and without failed subscriptions.
  ghost predicate InAgreement(auth: bool, w: World) {
    w.s.open && !w.faults ==>
      && !w.r.stopped
      && (forall t :: t in w.closings ==> !w.closings[t].Taken? || !w.closings[t].responder)
      && (w.r.attached <==> auth && w.s.calloutOpen && !w.checker.Opening?)
      && (w.checker.Opening? ==>
            w.checker.responder == auth && w.checker.wanted == w.s.calloutWanted && w.s.calloutOpen)
      && (w.lock.BySetter? && w.lock.t in w.setters && w.setters[w.lock.t].Acting? ==>
            w.setters[w.lock.t].active == w.s.calloutWanted && w.setters[w.lock.t].act == (auth && w.s.calloutOpen))
      && (w.checker.Opening? || (w.lock.BySetter? && w.lock.t in w.setters && w.setters[w.lock.t].Acting?)
          || Agrees(auth, w))
  }

  lemma SetterCallout(auth: bool, w: World, a: Action)
    requires CalloutOk(auth, w) && Enabled(w, a) && SetsCallout(a)
    ensures CalloutOk(auth, Do(w, a))
  {
  }

  // What promotions and shutdowns leave alone.
  lemma LeaderFrame(w: World, a: Action)
    requires Enabled(w, a) && (Promotes(a) || ShutsDown(a))
    ensures var w' := Do(w, a);
            && w'.lock == w.lock && w'.checker == w.checker && w'.setters == w.setters
            && w'.s.check == w.s.check && w'.s.closes == w.s.closes && w'.s.calloutOpen == w.s.calloutOpen
            && w'.r.attached == w.r.attached && (w'.r.serving ==> w.r.serving)
            && (w'.s.open ==> w.s.open && w'.s.answering == w.s.answering) && (w'.s.answering ==> w.s.answering)
  {
    match a
    case LeadFails(t) =>
    case ReleaseHeld(t) =>
    case _ =>
  }

  lemma LeaderCallout(auth: bool, w: World, a: Action)
    requires CalloutOk(auth, w) && Enabled(w, a) && (Promotes(a) || ShutsDown(a))
    ensures CalloutOk(auth, Do(w, a))
  {
    LeaderFrame(w, a);
  }

  lemma CheckCallout(auth: bool, w: World, a: Action)
    requires CalloutOk(auth, w) && Enabled(w, a) && !Promotes(a) && !ShutsDown(a) && !SetsCallout(a)
    ensures CalloutOk(auth, Do(w, a))
  {
  }

  lemma StepCallout(auth: bool, w: World, a: Action)
    requires CalloutOk(auth, w) && Enabled(w, a)
    ensures CalloutOk(auth, Do(w, a))
  {
    if SetsCallout(a) {
      SetterCallout(auth, w, a);
    } else if Promotes(a) || ShutsDown(a) {
      LeaderCallout(auth, w, a);
    } else {
      CheckCallout(auth, w, a);
    }
  }

  lemma SetterAgreement(auth: bool, w: World, a: Action)
    requires CalloutOk(auth, w) && InAgreement(auth, w) && Enabled(w, a) && SetsCallout(a)
    ensures InAgreement(auth, Do(w, a))
  {
  }

  lemma CheckAgreement(auth: bool, w: World, a: Action)
    requires CalloutOk(auth, w) && InAgreement(auth, w) && Enabled(w, a) && !Promotes(a) && !ShutsDown(a)
    requires !SetsCallout(a)
    ensures InAgreement(auth, Do(w, a))
  {
  }

  lemma ShutdownAgreement(auth: bool, w: World, a: Action)
    requires InAgreement(auth, w) && Enabled(w, a) && ShutsDown(a)
    ensures InAgreement(auth, Do(w, a))
  {
  }

  lemma PromotionAgreement(auth: bool, w: World, a: Action)
    requires InAgreement(auth, w) && Enabled(w, a) && Promotes(a)
    ensures InAgreement(auth, Do(w, a))
  {
  }

  lemma StepAgreement(auth: bool, w: World, a: Action)
    requires CalloutOk(auth, w) && InAgreement(auth, w) && Enabled(w, a)
    ensures InAgreement(auth, Do(w, a))
  {
    if SetsCallout(a) {
      SetterAgreement(auth, w, a);
    } else if Promotes(a) {
      PromotionAgreement(auth, w, a);
    } else if ShutsDown(a) {
      ShutdownAgreement(auth, w, a);
    } else {
      CheckAgreement(auth, w, a);
    }
  }

  lemma {:induction false} RunCallout(auth: bool, ws: seq<World>, i: nat)
    requires Run(auth, ws) && i < |ws|
    ensures CalloutOk(auth, ws[i]) && InAgreement(auth, ws[i])
  {
    if i > 0 {
      RunCallout(auth, ws, i - 1);
      CalloutNext(auth, ws, i - 1);
    }
  }

  lemma CalloutNext(auth: bool, ws: seq<World>, i: nat)
    requires Run(auth, ws) && i + 1 < |ws| && CalloutOk(auth, ws[i]) && InAgreement(auth, ws[i])
    ensures CalloutOk(auth, ws[i + 1]) && InAgreement(auth, ws[i + 1])
  {
    var a := TakenStep(auth, ws, i);
    StepCallout(auth, ws[i], a);
    StepAgreement(auth, ws[i], a);
  }

  // The thread that holds calloutMu is a setter about to pause or resume.
  predicate SetterActs(w: World) {
    w.lock.BySetter? && w.lock.t in w.setters && w.setters[w.lock.t].Acting?
  }

  // The responder serves against the last request only while a setter is about to pause it.
  ghost predicate ServesAsAsked(w: World) {
    && (w.checker.Opening? ==> w.checker.wanted == w.s.calloutWanted)
    && (SetterActs(w) ==> w.setters[w.lock.t].active == w.s.calloutWanted)
    && (w.s.open && w.r.serving ==> w.s.calloutWanted || (SetterActs(w) && w.setters[w.lock.t].act))
  }

  lemma LeaderAsAsked(w: World, a: Action)
    requires ServesAsAsked(w) && Enabled(w, a) && (Promotes(a) || ShutsDown(a))
    ensures ServesAsAsked(Do(w, a))
  {
    LeaderFrame(w, a);
  }

  lemma CalloutAsAsked(auth: bool, w: World, a: Action)
    requires CalloutOk(auth, w) && ServesAsAsked(w) && Enabled(w, a) && !Promotes(a) && !ShutsDown(a)
    ensures ServesAsAsked(Do(w, a))
  {
  }

  lemma AsAskedNext(auth: bool, ws: seq<World>, i: nat)
    requires Run(auth, ws) && i + 1 < |ws| && CalloutOk(auth, ws[i]) && ServesAsAsked(ws[i])
    ensures ServesAsAsked(ws[i + 1])
  {
    var a := TakenStep(auth, ws, i);
    if Promotes(a) || ShutsDown(a) {
      LeaderAsAsked(ws[i], a);
    } else {
      CalloutAsAsked(auth, ws[i], a);
    }
  }

  lemma {:induction false} RunAsAsked(auth: bool, ws: seq<World>, i: nat)
    requires Run(auth, ws) && i < |ws|
    ensures ServesAsAsked(ws[i])
  {
    if i > 0 {
      RunCallout(auth, ws, i - 1);
      RunAsAsked(auth, ws, i - 1);
      AsAskedNext(auth, ws, i - 1);
    }
  }

  /** Callout agreement: until a shutdown begins, whenever calloutMu is free, the responder is in
      the queue group only when the callout is open and active is what was last asked for, for
      every order of the calls and the checks; and unless a subscription failed, exactly then. */
  lemma CalloutAgreement(auth: bool, ws: seq<World>, i: nat)
    requires Run(auth, ws) && i < |ws| && ws[i].lock.Free? && ws[i].s.open
    ensures ws[i].r.serving ==> auth && ws[i].s.calloutOpen && ws[i].s.calloutWanted
    ensures !ws[i].faults ==> (ws[i].r.serving <==> auth && ws[i].s.calloutOpen && ws[i].s.calloutWanted)
  {
    RunCallout(auth, ws, i);
    RunAsAsked(auth, ws, i);
  }

  // ---- the responder after a shutdown ----

  /** A thread is still about to make the responder serve: the check, which read the responder
      before the shutdown took it and has yet to attach it, or a resume already decided on. */
  predicate StillServes(w: World) {
    !w.r.stopped &&
    if w.r.attached then SetterActs(w) && w.setters[w.lock.t].act && w.setters[w.lock.t].active
    else w.checker.Opening? && w.checker.responder && w.checker.wanted
  }

  // Shut down, not serving, and nothing under way that would serve.
  ghost predicate Quiet(w: World) {
    && !w.s.open && !w.s.answering
    && !w.r.serving && !StillServes(w)
    && (w.r.stopped ==> w.r.attached)
  }

  ghost predicate TakenWhole(w: World) {
    && (!w.s.open ==> !w.s.answering)
    && (w.r.stopped ==> w.r.attached && !w.r.serving)
  }

  lemma StepTakenWhole(w: World, a: Action)
    requires TakenWhole(w) && Enabled(w, a)
    ensures TakenWhole(Do(w, a))
  {
    match a
    case LeadFails(t) =>
    case ReleaseHeld(t) =>
    case _ =>
  }

  lemma {:induction false} RunTakenWhole(auth: bool, ws: seq<World>, i: nat)
    requires Run(auth, ws) && i < |ws|
    ensures TakenWhole(ws[i])
  {
    if i > 0 {
      RunTakenWhole(auth, ws, i - 1);
      var a := TakenStep(auth, ws, i - 1);
      StepTakenWhole(ws[i - 1], a);
    }
  }

  lemma QuietStep(auth: bool, w: World, a: Action)
    requires CalloutOk(auth, w) && Quiet(w) && Enabled(w, a) && !Promotes(a)
    ensures Quiet(Do(w, a))
  {
  }

  lemma QuietPromotion(w: World, a: Action)
    requires Quiet(w) && Enabled(w, a) && Promotes(a)
    ensures Quiet(Do(w, a))
  {
    LeaderFrame(w, a);
  }

  lemma QuietNext(auth: bool, ws: seq<World>, i: nat)
    requires Run(auth, ws) && i + 1 < |ws| && CalloutOk(auth, ws[i]) && Quiet(ws[i])
    ensures Quiet(ws[i + 1])
  {
    var a := TakenStep(auth, ws, i);
    if Promotes(a) {
      QuietPromotion(ws[i], a);
    } else {
      QuietStep(auth, ws[i], a);
    }
  }

  lemma {:induction false} StaysQuiet(auth: bool, ws: seq<World>, i: nat, j: nat)
    requires Run(auth, ws) && i <= j < |ws| && Quiet(ws[i])
    ensures Quiet(ws[j])
    decreases j
  {
    if i < j {
      StaysQuiet(auth, ws, i, j - 1);
      RunCallout(auth, ws, j - 1);
      QuietNext(auth, ws, j - 1);
    }
  }

  lemma ServesNext(w: World) returns (a: Action)
    requires StillServes(w)
    ensures Enabled(w, a) && Do(w, a).r.serving
  {
    a := if w.r.attached then ActSet(w.lock.t, true) else ActOpen(true);
  }

  // What follows a world of a run.
  ghost predicate Continues(auth: bool, ws: seq<World>, ws': seq<World>) {
    Run(auth, ws') && ws <= ws'
  }

  /** Once a shutdown has begun and the responder does not serve, it can serve again if and only if
      a thread was already about to make it: a check that had read it before the shutdown, and that
      Stop came too early for, or a resume. */
  lemma ServesAfterShutdownIff(auth: bool, ws: seq<World>)
    requires Run(auth, ws) && !ws[|ws| - 1].s.open && !ws[|ws| - 1].r.serving
    ensures (exists ws': seq<World> :: Continues(auth, ws, ws') && ws'[|ws'| - 1].r.serving) <==>
            StillServes(ws[|ws| - 1])
  {
    var w := ws[|ws| - 1];
    RunTakenWhole(auth, ws, |ws| - 1);
    if StillServes(w) {
      var a := ServesNext(w);
      var ws' := ws + [Do(w, a)];
      RunGrows(auth, ws, a);
      assert Continues(auth, ws, ws') && ws'[|ws'| - 1].r.serving;
    } else {
      forall ws': seq<World> | Continues(auth, ws, ws') ensures !ws'[|ws'| - 1].r.serving {
        assert ws'[|ws| - 1] == w;
        StaysQuiet(auth, ws', |ws| - 1, |ws'| - 1);
      }
    }
  }

  lemma Grow(auth: bool, ws: seq<World>, a: Action) returns (ws': seq<World>)
    requires Run(auth, ws) && Enabled(ws[|ws| - 1], a)
    ensures Run(auth, ws') && ws'[|ws'| - 1] == Do(ws[|ws| - 1], a)
  {
    RunGrows(auth, ws, a);
    ws' := ws + [Do(ws[|ws| - 1], a)];
  }

  // A check in the foreground has passed and is about to attach the responder.
  lemma CheckHasResponder() returns (ws: seq<World>)
    ensures Run(true, ws)
    ensures ws[|ws| - 1] == Init(true).(s := Standby(true).(calloutOpen := true), lock := ByCheck,
                                        checker := Opening(true, true))
  {
    ws := [Init(true)];
    ws := Grow(true, ws, CheckEnds(true));
    ws := Grow(true, ws, EnterOpen);
    ws := Grow(true, ws, ReadOpen);
  }

  /** It happens: a shutdown that stops the responder while a check in the foreground has it in hand,
      unattached, leaves it to serve, until the connection it listens on is closed. */
  lemma ServesAfterShutdown() returns (ws: seq<World>)
    ensures Run(true, ws)
    ensures var w := ws[|ws| - 1]; !w.s.open && w.closings == map[] && w.r.serving
  {
    ws := CheckHasResponder();
    ws := Grow(true, ws, Shutdown(0));
    ws := Grow(true, ws, StopResponder(0));
    ws := Grow(true, ws, ReleaseHeld(0));
    ws := Grow(true, ws, ActOpen(true));
  }

  lemma CheckIsFinal(w: World, a: Action)
    requires Enabled(w, a) && !w.s.check.Unchecked?
    ensures Do(w, a).s.check == w.s.check
  {
    match a
    case RecordCheck =>
    case _ =>
  }

  lemma {:induction false} CheckChain(ws: seq<World>, i: nat, j: nat)
    requires i <= j < |ws| && !ws[i].s.check.Unchecked?
    requires forall k :: i <= k < j && !ws[k].s.check.Unchecked? ==> ws[k + 1].s.check == ws[k].s.check
    ensures ws[j].s.check == ws[i].s.check
  {
    if i < j {
      CheckChain(ws, i, j - 1);
      assert ws[j - 1 + 1].s.check == ws[j - 1].s.check;
    }
  }

  /** Failures, shutdowns and a cancelled check included, the responder serves only once the
      checks have passed, their outcome recorded or about to be; the outcome is set once, and the
      channel closed once. */
  lemma NeverServesUnchecked(auth: bool, ws: seq<World>, i: nat, j: nat)
    requires Run(auth, ws) && i <= j < |ws|
    ensures ws[i].r.serving ==>
              ws[i].s.check.Passed? || (ws[i].s.check.Unchecked? && ws[i].checker == Recording(Passed))
    ensures ws[i].s.closes <= 1 && (ws[i].s.closes == 1 <==> !ws[i].s.check.Unchecked?)
    ensures !ws[i].s.check.Unchecked? ==> ws[j].s.check == ws[i].s.check
  {
    RunCallout(auth, ws, i);
    if !ws[i].s.check.Unchecked? {
      forall k | i <= k < j && !ws[k].s.check.Unchecked? ensures ws[k + 1].s.check == ws[k].s.check {
        var a := TakenStep(auth, ws, k);
        CheckIsFinal(ws[k], a);
      }
      CheckChain(ws, i, j);
    }
  }
}

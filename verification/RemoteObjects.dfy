/**
  The standby in its own form: the Remote and Responder objects, whose
  methods are the lock-protected sections, and the threads that call them. Any
  interleaving of the threads is a run of the step machines, so what every run keeps
  holds of the objects.
 */
module RemoteObjects {
  import opened Common
  import opened RemoteState
  import opened RemoteMachine
  import Drain = ResponderDrain

  class Remote {
    var open: bool
    var answering: bool
    var leading: bool
    var check: Outcome
    var closes: nat
    var calloutOpen: bool
    var calloutWanted: bool
    var guard: Option<GuardRef>

    function State(): Shared
      reads this
    {
      Shared(open, answering, leading, check, closes, calloutOpen, calloutWanted, guard)
    }

    constructor (auth: bool)
      ensures State() == Standby(auth)
    {
      open, answering, leading, check, closes := true, auth, false, Unchecked, 0;
      calloutOpen, calloutWanted, guard := false, true, None;
    }

    method BeginLeadership(connected: bool) returns (ok: bool)
      modifies this
      ensures (ok, State()) == Begin(old(State()), connected)
    {
      if !open {
        return false;
      } else if leading {
        return false;
      } else if !connected {
        return false;
      } else if !check.Passed? {
        return false;
      }
      leading := true;
      return true;
    }

    method FinishLeadership(failed: bool, g: Option<GuardRef>) returns (release: Option<GuardRef>)
      modifies this
      ensures (State(), release) == Finish(old(State()), failed, g)
    {
      var err := failed;
      if !err && !open {
        err := true;
      }
      if err {
        leading := false;
        return g;
      }
      guard := g;
      return None;
    }

    method TakeForShutdown() returns (responder: bool, g: Option<GuardRef>)
      modifies this
      ensures (State(), responder, g) == TakeAll(old(State()))
    {
      responder, g := answering, guard;
      open, answering := false, false;
      guard := None;
    }

    method FinishStandbyCheck(o: Outcome)
      modifies this
      ensures State() == FinishCheck(old(State()), o)
    {
      if !check.Unchecked? {
        return;
      }
      check := o;
      closes := closes + 1;
    }

    // The section of openCallout: the callout is open from here on.
    method OpenCallout() returns (responder: bool, wanted: bool)
      modifies this
      ensures State() == old(State()).(calloutOpen := true)
      ensures responder == old(answering) && wanted == old(calloutWanted)
    {
      responder, wanted := answering, calloutWanted;
      calloutOpen := true;
    }

    // The section of SetCalloutActive: whether there is a responder to pause or resume.
    method WantCallout(active: bool) returns (act: bool)
      modifies this
      ensures State() == old(State()).(calloutWanted := active)
      ensures act == (old(answering) && old(calloutOpen))
    {
      calloutWanted := active;
      act := answering && calloutOpen;
    }
  }

  // The auth-callout responder. `slots` counts the tokens in its slots channel.
  class Responder {
    var attached: bool
    var serving: bool
    var stopped: bool
    var closing: bool
    var inflight: nat
    var slots: nat

    function State(): Resp
      reads this
    {
      Resp(attached, serving, stopped)
    }

    constructor ()
      ensures State() == IDLE_RESPONDER && !closing && inflight == 0 && slots == 0
    {
      attached, serving, stopped, closing, inflight, slots := false, false, false, false, 0, 0;
    }

    method ListenOn(subscribes: bool)
      modifies this`attached, this`serving
      ensures State() == Listen(old(State()), subscribes)
    {
      if attached {
        return;
      }
      attached := true;
      if !subscribes {
        attached := false;
        return;
      }
      serving := true;
    }

    method AttachTo()
      modifies this`attached
      ensures State() == Attach(old(State()))
    {
      if attached {
        return;
      }
      attached := true;
    }

    method PauseServing()
      modifies this`serving
      ensures State() == Pause(old(State()))
    {
      serving := false;
    }

    method ResumeServing(subscribes: bool)
      modifies this`serving
      ensures State() == Resume(old(State()), subscribes)
    {
      if stopped || !attached || serving {
        return;
      }
      if !subscribes {
        return;
      }
      serving := true;
    }

    method StopServing()
      modifies this`stopped, this`serving
      ensures State() == Stop(old(State()))
    {
      if !attached || stopped {
        return;
      }
      stopped := true;
      serving := false;
    }

    method Accept() returns (ok: bool)
      modifies this`inflight
      ensures ok <==> !closing
      ensures inflight == old(inflight) + if ok then 1 else 0
    {
      if closing {
        return false;
      }
      inflight := inflight + 1;
      return true;
    }
  }

  // ---- promotions, shutdowns, the check and SetCalloutActive ----

  /** One section of one thread, on the objects: TakeLeadership, Shutdown, passStandbyCheck or
      SetCalloutActive, with what the thread keeps to itself. It is the machine's step. */
  method Perform(remote: Remote, resp: Responder, w: World, a: Action) returns (w': World)
    requires Enabled(w, a) && remote.State() == w.s && resp.State() == w.r
    modifies remote, resp
    ensures w' == Do(w, a) && remote.State() == w'.s && resp.State() == w'.r
  {
    w' := w;
    if Promotes(a) {
      w' := PerformPromotion(remote, w, a);
    } else if ShutsDown(a) {
      w' := PerformShutdown(remote, resp, w, a);
    } else if SetsCallout(a) {
      w' := PerformSet(remote, resp, w, a);
    } else {
      w' := PerformCheck(remote, resp, w, a);
    }
  }

  method PerformPromotion(remote: Remote, w: World, a: Action) returns (w': World)
    requires Enabled(w, a) && Promotes(a) && remote.State() == w.s
    modifies remote
    ensures w' == Do(w, a) && remote.State() == w'.s
  {
    w' := w;
    match a {
      case Promote(t, connected) =>
        var ok := remote.BeginLeadership(connected);
        if ok {
          w' := w.(promos := w.promos[t := Running(None, false)]);
        }
      case Acquire(t, g) =>
        w' := w.(acquired := w.acquired + {g}, promos := w.promos[t := Running(Some(g), false)]);
      case LeadFails(t) =>
        w' := Released(w.(promos := w.promos[t := Running(None, true)]), w.promos[t].held);
      case FinishPromotion(t) =>
        var release := remote.FinishLeadership(w.promos[t].failed, w.promos[t].held);
        w' := w.(promos := if release.Some? then w.promos[t := Releasing(release.value)] else w.promos - {t});
      case ReleaseFailed(t) =>
        w' := Released(w.(promos := w.promos - {t}), Some(w.promos[t].g));
    }
    w' := w'.(s := remote.State());
  }

  method PerformShutdown(remote: Remote, resp: Responder, w: World, a: Action) returns (w': World)
    requires Enabled(w, a) && ShutsDown(a) && remote.State() == w.s && resp.State() == w.r
    modifies remote, resp
    ensures w' == Do(w, a) && remote.State() == w'.s && resp.State() == w'.r
  {
    w' := w;
    match a {
      case Shutdown(t) =>
        var responder, g := remote.TakeForShutdown();
        w' := w.(closings := w.closings[t := Taken(responder, g)]);
      case StopResponder(t) =>
        if w.closings[t].responder {
          resp.StopServing();
        }
        w' := w.(closings := w.closings[t := Stopped(w.closings[t].held)]);
      case ReleaseHeld(t) =>
        w' := Released(w.(closings := w.closings - {t}), w.closings[t].held);
    }
    w' := w'.(s := remote.State(), r := resp.State());
  }

  method PerformCheck(remote: Remote, resp: Responder, w: World, a: Action) returns (w': World)
    requires Enabled(w, a) && !Promotes(a) && !ShutsDown(a) && !SetsCallout(a)
    requires remote.State() == w.s && resp.State() == w.r
    modifies remote, resp
    ensures w' == Do(w, a) && remote.State() == w'.s && resp.State() == w'.r
  {
    w' := w;
    match a {
      case CheckEnds(pass) =>
        w' := w.(checker := if pass then Passing else Recording(Refused));
      case CheckCancelled =>
        w' := w.(checker := Over);
      case EnterOpen =>
        w' := w.(lock := ByCheck, checker := Entering);
      case ReadOpen =>
        var responder, wanted := remote.OpenCallout();
        w' := w.(checker := Opening(responder, wanted));
      case ActOpen(subscribes) =>
        if w.checker.responder {
          if w.checker.wanted {
            resp.ListenOn(subscribes);
          } else {
            resp.AttachTo();
          }
        }
        w' := w.(lock := Free, checker := Recording(Passed), faults := w.faults || !subscribes);
      case RecordCheck =>
        remote.FinishStandbyCheck(w.checker.o);
        w' := w.(checker := Over);
    }
    w' := w'.(s := remote.State(), r := resp.State());
  }

  method PerformSet(remote: Remote, resp: Responder, w: World, a: Action) returns (w': World)
    requires Enabled(w, a) && SetsCallout(a) && remote.State() == w.s && resp.State() == w.r
    modifies remote, resp
    ensures w' == Do(w, a) && remote.State() == w'.s && resp.State() == w'.r
  {
    w' := w;
    match a {
      case SetCallout(t, active) =>
        w' := w.(setters := w.setters[t := Queued(active)]);
      case EnterSet(t) =>
        w' := w.(lock := BySetter(t), setters := w.setters[t := Entered(w.setters[t].active)]);
      case WriteSet(t) =>
        var act := remote.WantCallout(w.setters[t].active);
        w' := w.(setters := w.setters[t := Acting(w.setters[t].active, act)]);
      case ActSet(t, subscribes) =>
        if w.setters[t].act {
          if w.setters[t].active {
            resp.ResumeServing(subscribes);
          } else {
            resp.PauseServing();
          }
        }
        w' := w.(lock := Free, setters := w.setters - {t}, faults := w.faults || !subscribes);
    }
    w' := w'.(s := remote.State(), r := resp.State());
  }

  /** Any interleaving of the threads' sections, on fresh objects: the objects go through a run of
      the machine. So the responder serves only once the checks passed, a stored guard means a
      leader whose checks passed, and every guard acquired is stored, on its way to its release, or
      released once. */
  method Interleave(auth: bool, acts: seq<Action>)
    returns (remote: Remote, resp: Responder, w: World, ghost ws: seq<World>)
    ensures Run(auth, ws) && w == ws[|ws| - 1] && remote.State() == w.s && resp.State() == w.r
    ensures resp.serving ==> remote.check.Passed? || (remote.check.Unchecked? && w.checker == Recording(Passed))
    ensures remote.guard.Some? ==> remote.open && remote.leading && remote.check.Passed?
    ensures Conserved(w)
  {
    remote := new Remote(auth);
    resp := new Responder();
    w := Init(auth);
    ws := [w];
    for n := 0 to |acts|
      invariant fresh(remote) && fresh(resp)
      invariant Run(auth, ws) && w == ws[|ws| - 1] && remote.State() == w.s && resp.State() == w.r
    {
      if Enabled(w, acts[n]) {
        RunGrows(auth, ws, acts[n]);
        w := Perform(remote, resp, w, acts[n]);
        ws := ws + [w];
      }
    }
    GuardConservation(auth, ws, |ws| - 1);
    NeverServesUnchecked(auth, ws, |ws| - 1, |ws| - 1);
  }

  // ---- dispatch and drain ----

  ghost predicate Follows(resp: Responder, w: Drain.World)
    reads resp
  {
    resp.slots == w.slots && resp.inflight == w.inflight && resp.closing == w.closing
  }

  // One step of dispatch or drain, on the responder: it is the machine's.
  method Dispatch(resp: Responder, w: Drain.World, a: Drain.Action) returns (w': Drain.World)
    requires Drain.Enabled(w, a) && Follows(resp, w)
    modifies resp`slots, resp`inflight, resp`closing
    ensures w' == Drain.Do(w, a) && Follows(resp, w')
  {
    w' := w;
    match a {
      case Deliver(q) =>
        w' := Drain.Put(w, q, Drain.Delivered);
      case TakeSlot(q) =>
        resp.slots := resp.slots + 1;
        w' := Drain.Put(w, q, Drain.Slotted);
      case Enter(q) =>
        var ok := resp.Accept();
        w' := Drain.Put(w, q, if ok then Drain.Accepted else Drain.Rejected);
      case GiveBack(q) =>
        resp.slots := resp.slots - 1;
        w' := Drain.Put(w, q, Drain.TurnedAway);
      case Respond(q) =>
        w' := Drain.Put(w, q, Drain.Replied).(answers := w.answers + multiset{q});
      case FreeSlot(q) =>
        resp.slots := resp.slots - 1;
        w' := Drain.Put(w, q, Drain.Freed);
      case Finish(q) =>
        resp.inflight := resp.inflight - 1;
        w' := Drain.Put(w, q, Drain.Done);
      case Close =>
        resp.closing := true;
      case AllAnswered =>
        w' := w.(drained := Some(true));
      case TimeOut =>
        w' := w.(drained := Some(false));
    }
    w' := w'.(slots := resp.slots, inflight := resp.inflight, closing := resp.closing);
  }

  /** Any interleaving of requests and a drain, on a fresh responder: never more than
      calloutMaxInFlight slots are taken, and when the drain reports true every request that was
      accepted has been answered once. */
  method Serve(acts: seq<Drain.Action>) returns (resp: Responder, w: Drain.World, ghost ws: seq<Drain.World>)
    ensures Drain.Run(ws) && w == ws[|ws| - 1] && Follows(resp, w)
    ensures resp.slots <= Drain.CALLOUT_MAX_IN_FLIGHT
    ensures w.drained == Some(true) ==> forall q :: q in Drain.EverAccepted(w) ==> w.answers[q] == 1
  {
    resp := new Responder();
    w := Drain.Init();
    ws := [w];
    for n := 0 to |acts|
      invariant fresh(resp)
      invariant Drain.Run(ws) && w == ws[|ws| - 1] && Follows(resp, w)
    {
      if Drain.Enabled(w, acts[n]) {
        Drain.RunGrows(ws, acts[n]);
        w := Dispatch(resp, w, acts[n]);
        ws := ws + [w];
      }
    }
    Drain.SlotsAndAnswers(ws, |ws| - 1);
    if w.drained == Some(true) {
      forall q | q in Drain.EverAccepted(w) ensures w.answers[q] == 1 {
        Drain.DrainedMeansAnswered(ws, |ws| - 1, |ws| - 1, q);
      }
    }
  }
}

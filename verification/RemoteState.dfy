/**
  The fields a standby's threads share, and the lock-protected sections that
  read and write them, as functions: those of Remote, under Remote.mu, and those of the
  auth-callout Responder, under Responder.mu.
 */
module RemoteState {
  import opened Common

  // The outcome of a standby's broker checks (Remote.standbyErr).
  datatype Outcome = Unchecked | Passed | Refused

  // A guard, named by a number.
  type GuardRef = nat

  /** Remote's fields. `open` is data != nil; `answering` is responder != nil, with its
      callout connection; `closes` counts the closes of the standbyChecked channel. */
  datatype Shared = Shared(open: bool, answering: bool, leading: bool, check: Outcome, closes: nat,
                           calloutOpen: bool, calloutWanted: bool, guard: Option<GuardRef>)

  // Responder's fields: nc != nil, sub != nil, stopped.
  datatype Resp = Resp(attached: bool, serving: bool, stopped: bool)

  // StartStandby's connections are up; worker authentication is on or off.
  function Standby(auth: bool): Shared {
    Shared(true, auth, false, Unchecked, 0, false, true, None)
  }

  const IDLE_RESPONDER: Resp := Resp(false, false, false)

  // beginLeadership, on a standby whose data connection is up or not.
  function Begin(s: Shared, connected: bool): (r: (bool, Shared))
    ensures r.0 <==> s.open && !s.leading && connected && s.check.Passed?
  {
    if !s.open || s.leading || !connected || !s.check.Passed? then (false, s) else (true, s.(leading := true))
  }

  // The last section of TakeLeadership: store the guard, or hand it back to be released.
  function Finish(s: Shared, failed: bool, g: Option<GuardRef>): (r: (Shared, Option<GuardRef>))
    ensures r.1 == None || r.1 == g
  {
    if failed || !s.open then (s.(leading := false), g) else (s.(guard := g), None)
  }

  // Shutdown's section: everything is taken from Remote, to be stopped, released and closed.
  function TakeAll(s: Shared): (r: (Shared, bool, Option<GuardRef>)) {
    (s.(open := false, answering := false, guard := None), s.answering, s.guard)
  }

  // finishStandbyCheck: the first outcome is final.
  function FinishCheck(s: Shared, o: Outcome): (r: Shared)
    ensures r.check == (if s.check.Unchecked? then o else s.check)
  {
    if s.check.Unchecked? then s.(check := o, closes := s.closes + 1) else s
  }

  // Responder.Listen; fails when already attached, and when the subscription fails.
  function Listen(r: Resp, subscribes: bool): Resp {
    if r.attached || !subscribes then r else r.(attached := true, serving := true)
  }

  function Attach(r: Resp): Resp {
    r.(attached := true)
  }

  function Pause(r: Resp): Resp {
    r.(serving := false)
  }

  function Resume(r: Resp, subscribes: bool): Resp {
    if r.stopped || !r.attached || r.serving || !subscribes then r else r.(serving := true)
  }

  function Stop(r: Resp): Resp {
    if !r.attached || r.stopped then r else r.(stopped := true, serving := false)
  }
}

/**
  The requests an auth-callout responder works on, from delivery to reply,
  while it is paused, resumed and stopped: how many hold a slot, how often each is
  answered, and what Stop's drain may conclude from an in-flight count of zero.
 */
module ResponderDrain {
  import opened Common

  const CALLOUT_MAX_IN_FLIGHT := 16

  /** A request's way through dispatch: delivered and waiting for a slot, holding one, turned
      away by accept, or accepted and then replied to, its slot given back, and counted done. */
  datatype Stage = Delivered | Slotted | Rejected | TurnedAway | Accepted | Replied | Freed | Done

  predicate HasSlot(s: Stage) {
    s.Slotted? || s.Rejected? || s.Accepted? || s.Replied?
  }

  predicate Counted(s: Stage) {
    s.Accepted? || s.Replied? || s.Freed?
  }

  predicate WasAccepted(s: Stage) {
    Counted(s) || s.Done?
  }

  // closing is set by drain; drained is what drain returned, once it has.
  datatype World = World(reqs: map<nat, Stage>, slots: nat, inflight: nat, answers: multiset<nat>,
                         closing: bool, drained: Option<bool>)

  function Init(): World {
    World(map[], 0, 0, multiset{}, false, None)
  }

  datatype Action =
    | Deliver(q: nat)       // a subscription's handler is called, whenever that subscription was made
    | TakeSlot(q: nat)
    | Enter(q: nat)         // accept
    | GiveBack(q: nat)      // a request turned away gives its slot back
    | Respond(q: nat)
    | FreeSlot(q: nat)
    | Finish(q: nat)        // inflight.Done
    | Close                 // drain sets closing
    | AllAnswered           // drain's wait ends: the in-flight count is zero
    | TimeOut               // drain's deadline passes

  predicate At(w: World, q: nat, s: Stage) {
    q in w.reqs && w.reqs[q] == s
  }

  predicate Enabled(w: World, a: Action) {
    match a
    case Deliver(q) => q !in w.reqs
    case TakeSlot(q) => At(w, q, Delivered) && w.slots < CALLOUT_MAX_IN_FLIGHT
    case Enter(q) => At(w, q, Slotted)
    case GiveBack(q) => At(w, q, Rejected) && w.slots > 0
    case Respond(q) => At(w, q, Accepted)
    case FreeSlot(q) => At(w, q, Replied) && w.slots > 0
    case Finish(q) => At(w, q, Freed) && w.inflight > 0
    case Close => w.drained.None?
    case AllAnswered => w.drained.None? && w.closing && w.inflight == 0
    case TimeOut => w.drained.None?
  }

  function Put(w: World, q: nat, s: Stage): World {
    w.(reqs := w.reqs[q := s])
  }

  function Do(w: World, a: Action): World
    requires Enabled(w, a)
  {
    match a
    case Deliver(q) => Put(w, q, Delivered)
    case TakeSlot(q) => Put(w, q, Slotted).(slots := w.slots + 1)
    case Enter(q) =>
      if w.closing then Put(w, q, Rejected) else Put(w, q, Accepted).(inflight := w.inflight + 1)
    case GiveBack(q) => Put(w, q, TurnedAway).(slots := w.slots - 1)
    case Respond(q) => Put(w, q, Replied).(answers := w.answers + multiset{q})
    case FreeSlot(q) => Put(w, q, Freed).(slots := w.slots - 1)
    case Finish(q) => Put(w, q, Done).(inflight := w.inflight - 1)
    case Close => w.(closing := true)
    case AllAnswered => w.(drained := Some(true))
    case TimeOut => w.(drained := Some(false))
  }

  // World i leads to the next by one action.
  ghost predicate Step(ws: seq<World>, i: nat)
    requires i + 1 < |ws|
  {
    exists a :: Enabled(ws[i], a) && ws[i + 1] == Do(ws[i], a)
  }

  ghost predicate Run(ws: seq<World>) {
    && |ws| > 0
    && ws[0] == Init()
    && forall i :: 0 <= i < |ws| - 1 ==> Step(ws, i)
  }

  ghost function Holders(w: World): set<nat> {
    set q | q in w.reqs && HasSlot(w.reqs[q])
  }

  ghost function InFlight(w: World): set<nat> {
    set q | q in w.reqs && Counted(w.reqs[q])
  }

  ghost function EverAccepted(w: World): set<nat> {
    set q | q in w.reqs && WasAccepted(w.reqs[q])
  }

  predicate HasReplied(s: Stage) {
    s.Replied? || s.Freed? || s.Done?
  }

  // The slots channel holds one token per request between taking and freeing its slot.
  ghost predicate SlotsOk(w: World) {
    w.slots == |Holders(w)| <= CALLOUT_MAX_IN_FLIGHT
  }

  // The in-flight count is the number of requests accepted and not done.
  ghost predicate InFlightOk(w: World) {
    && w.inflight == |InFlight(w)|
    && (w.drained == Some(true) ==> w.closing && w.inflight == 0)
  }

  // A request is answered when it has replied, once, and never before.
  ghost predicate AnswersOk(w: World) {
    forall q :: w.answers[q] == if q in w.reqs && HasReplied(w.reqs[q]) then 1 else 0
  }

  // One request moves to a new stage.
  lemma PutSets(w: World, q: nat, s: Stage)
    ensures Holders(Put(w, q, s)) == if HasSlot(s) then Holders(w) + {q} else Holders(w) - {q}
    ensures InFlight(Put(w, q, s)) == if Counted(s) then InFlight(w) + {q} else InFlight(w) - {q}
    ensures EverAccepted(Put(w, q, s)) == if WasAccepted(s) then EverAccepted(w) + {q} else EverAccepted(w) - {q}
  {
  }

  lemma StepSets(w: World, a: Action)
    requires Enabled(w, a)
    ensures var w' := Do(w, a);
            if a.Close? || a.AllAnswered? || a.TimeOut? then
              Holders(w') == Holders(w) && InFlight(w') == InFlight(w) && EverAccepted(w') == EverAccepted(w)
            else
              a.q in w'.reqs && var p := Put(w, a.q, w'.reqs[a.q]);
              Holders(w') == Holders(p) && InFlight(w') == InFlight(p) && EverAccepted(w') == EverAccepted(p)
  {
  }

  // Taking a slot adds a holder, giving it back removes one, and nothing else does.
  lemma HoldersAfter(w: World, a: Action)
    requires Enabled(w, a) && !a.Close? && !a.AllAnswered? && !a.TimeOut?
    ensures Holders(Do(w, a)) ==
            if a.TakeSlot? then Holders(w) + {a.q}
            else if a.GiveBack? || a.FreeSlot? then Holders(w) - {a.q}
            else Holders(w)
    ensures a.TakeSlot? ==> a.q !in Holders(w)
    ensures a.GiveBack? || a.FreeSlot? ==> a.q in Holders(w)
  {
    StepSets(w, a);
    PutSets(w, a.q, Do(w, a).reqs[a.q]);
  }

  lemma SlotStep(w: World, a: Action)
    requires Enabled(w, a) && !a.Close? && !a.AllAnswered? && !a.TimeOut?
    ensures var d := if a.TakeSlot? then 1 else if a.GiveBack? || a.FreeSlot? then -1 else 0;
            |Holders(Do(w, a))| == |Holders(w)| + d && Do(w, a).slots == w.slots + d
  {
    HoldersAfter(w, a);
  }

  lemma StepSlots(w: World, a: Action)
    requires SlotsOk(w) && Enabled(w, a)
    ensures SlotsOk(Do(w, a))
  {
    if a.Close? || a.AllAnswered? || a.TimeOut? {
      StepSets(w, a);
    } else {
      SlotStep(w, a);
    }
  }

  lemma StepInFlight(w: World, a: Action)
    requires InFlightOk(w) && Enabled(w, a)
    ensures InFlightOk(Do(w, a))
  {
    StepSets(w, a);
    if !a.Close? && !a.AllAnswered? && !a.TimeOut? {
      CountStep(w, a);
    }
  }

  lemma InFlightAfter(w: World, a: Action)
    requires Enabled(w, a) && !a.Close? && !a.AllAnswered? && !a.TimeOut?
    ensures InFlight(Do(w, a)) ==
            if a.Enter? && !w.closing then InFlight(w) + {a.q}
            else if a.Finish? then InFlight(w) - {a.q}
            else InFlight(w)
    ensures a.Enter? ==> a.q !in InFlight(w)
    ensures a.Finish? ==> a.q in InFlight(w)
  {
    StepSets(w, a);
    PutSets(w, a.q, Do(w, a).reqs[a.q]);
  }

  lemma CountStep(w: World, a: Action)
    requires Enabled(w, a) && !a.Close? && !a.AllAnswered? && !a.TimeOut?
    ensures var d := if a.Enter? && !w.closing then 1 else if a.Finish? then -1 else 0;
            |InFlight(Do(w, a))| == |InFlight(w)| + d && Do(w, a).inflight == w.inflight + d
  {
    InFlightAfter(w, a);
  }

  lemma StepAnswers(w: World, a: Action)
    requires AnswersOk(w) && Enabled(w, a)
    ensures AnswersOk(Do(w, a))
  {
  }

  // A run goes on with any enabled action.
  lemma RunGrows(ws: seq<World>, a: Action)
    requires Run(ws) && Enabled(ws[|ws| - 1], a)
    ensures Run(ws + [Do(ws[|ws| - 1], a)])
  {
    var ws' := ws + [Do(ws[|ws| - 1], a)];
    forall i | 0 <= i < |ws'| - 1 ensures Step(ws', i) {
      var b := a;
      if i < |ws| - 1 {
        b := TakenStep(ws, i);
      }
      assert Enabled(ws'[i], b) && ws'[i + 1] == Do(ws'[i], b);
    }
  }

  lemma TakenStep(ws: seq<World>, i: nat) returns (a: Action)
    requires Run(ws) && i + 1 < |ws|
    ensures Enabled(ws[i], a) && ws[i + 1] == Do(ws[i], a)
  {
    assert Step(ws, i);
    a :| Enabled(ws[i], a) && ws[i + 1] == Do(ws[i], a);
  }

  /** At every point of every run, pauses, resumes and a stop included: at most
      calloutMaxInFlight requests hold a slot and no token is lost or made up; the in-flight count is
      exact; and each request that was replied to was answered exactly once, every other not at all. */
  lemma {:induction false} SlotsAndAnswers(ws: seq<World>, i: nat)
    requires Run(ws) && i < |ws|
    ensures SlotsOk(ws[i]) && InFlightOk(ws[i]) && AnswersOk(ws[i])
  {
    if i > 0 {
      SlotsAndAnswers(ws, i - 1);
      var a := TakenStep(ws, i - 1);
      StepSlots(ws[i - 1], a);
      StepInFlight(ws[i - 1], a);
      StepAnswers(ws[i - 1], a);
    }
  }

  // Once closing, no request is accepted.
  lemma ClosedStep(w: World, a: Action)
    requires Enabled(w, a) && w.closing
    ensures Do(w, a).closing && EverAccepted(Do(w, a)) == EverAccepted(w)
    ensures w.drained.Some? ==> Do(w, a).drained == w.drained
  {
    StepSets(w, a);
    if !a.Close? && !a.AllAnswered? && !a.TimeOut? {
      PutSets(w, a.q, Do(w, a).reqs[a.q]);
    }
  }

  ghost predicate StaysClosed(w: World, w': World) {
    w.closing ==>
      && w'.closing && EverAccepted(w') == EverAccepted(w)
      && (w.drained.Some? ==> w'.drained == w.drained)
  }

  lemma {:induction false} ClosedChain(ws: seq<World>, i: nat, j: nat)
    requires i <= j < |ws| && forall k :: i <= k < j ==> StaysClosed(ws[k], ws[k + 1])
    ensures StaysClosed(ws[i], ws[j])
  {
    if i < j {
      ClosedChain(ws, i, j - 1);
      assert StaysClosed(ws[j - 1], ws[j - 1 + 1]);
    }
  }

  lemma NoneAcceptedAfterClosing(ws: seq<World>, i: nat, j: nat)
    requires Run(ws) && i <= j < |ws| && ws[i].closing
    ensures ws[j].closing && EverAccepted(ws[j]) == EverAccepted(ws[i])
    ensures ws[i].drained.Some? ==> ws[j].drained == ws[i].drained
  {
    forall k | i <= k < j ensures StaysClosed(ws[k], ws[k + 1]) {
      var a := TakenStep(ws, k);
      if ws[k].closing {
        ClosedStep(ws[k], a);
      }
    }
    ClosedChain(ws, i, j);
  }

  /** When drain reports true, every request ever accepted has been answered, exactly once, and
      none is accepted or answered after. */
  lemma DrainedMeansAnswered(ws: seq<World>, i: nat, j: nat, q: nat)
    requires Run(ws) && i <= j < |ws| && ws[i].drained == Some(true)
    ensures EverAccepted(ws[j]) == EverAccepted(ws[i])
    ensures q in EverAccepted(ws[j]) ==> ws[j].reqs[q].Done? && ws[j].answers[q] == 1
    ensures q !in EverAccepted(ws[j]) ==> ws[j].answers[q] == 0
  {
    SlotsAndAnswers(ws, i);
    SlotsAndAnswers(ws, j);
    NoneAcceptedAfterClosing(ws, i, j);
    assert q !in InFlight(ws[j]);
  }

  // ---- what a responder gets done ----

  // Until the drain begins, every request that has its slot is accepted.
  ghost predicate NoneTurnedAway(w: World) {
    !w.closing ==> forall q :: q in w.reqs ==> !w.reqs[q].Rejected? && !w.reqs[q].TurnedAway?
  }

  lemma {:induction false} NoneTurnedAwayBeforeClosing(ws: seq<World>, i: nat)
    requires Run(ws) && i < |ws|
    ensures NoneTurnedAway(ws[i])
  {
    if i > 0 {
      NoneTurnedAwayBeforeClosing(ws, i - 1);
      var a := TakenStep(ws, i - 1);
    }
  }

  // A delivered request can take a slot exactly while fewer than 16 requests hold one.
  lemma SlotFreeIff(ws: seq<World>, i: nat, q: nat)
    requires Run(ws) && i < |ws| && At(ws[i], q, Delivered)
    ensures Enabled(ws[i], TakeSlot(q)) <==> |Holders(ws[i])| < 16
  {
    SlotsAndAnswers(ws, i);
  }

  // Where a run got to.
  ghost predicate Reaches(ws: seq<World>, ws': seq<World>, w': World) {
    Run(ws') && ws <= ws' && w' == ws'[|ws'| - 1]
  }

  lemma Go(ws: seq<World>, a: Action) returns (ws': seq<World>, w': World)
    requires Run(ws) && Enabled(ws[|ws| - 1], a)
    ensures Reaches(ws, ws', w') && w' == Do(ws[|ws| - 1], a)
  {
    RunGrows(ws, a);
    w' := Do(ws[|ws| - 1], a);
    ws' := ws + [w'];
  }

  // One request in flight can be seen through: replied to, its slot freed, and counted done.
  lemma SeeThrough(ws: seq<World>, w: World, q: nat) returns (ws': seq<World>, w': World)
    requires Run(ws) && w == ws[|ws| - 1] && q in InFlight(w)
    ensures Reaches(ws, ws', w') && InFlight(w') == InFlight(w) - {q}
    ensures EverAccepted(w') == EverAccepted(w) && w'.closing == w.closing && w'.drained == w.drained
    decreases if w.reqs[q].Accepted? then 2 else if w.reqs[q].Replied? then 1 else 0
  {
    SlotsAndAnswers(ws, |ws| - 1);
    var a := if w.reqs[q].Accepted? then Respond(q) else if w.reqs[q].Replied? then FreeSlot(q) else Finish(q);
    assert q in Holders(w) <==> HasSlot(w.reqs[q]);
    ws', w' := Go(ws, a);
    StepSets(w, a);
    PutSets(w, q, w'.reqs[q]);
    if !a.Finish? {
      assert InFlight(w') == InFlight(w);
      ws', w' := SeeThrough(ws', w', q);
    }
  }

  /** A drain that has begun and not ended can always end in time: whatever is in flight can be answered, and
      then it reports true. */
  lemma {:induction false} DrainCanEnd(ws: seq<World>, w: World) returns (ws': seq<World>, w': World)
    requires Run(ws) && w == ws[|ws| - 1] && w.closing && w.drained.None?
    ensures Reaches(ws, ws', w') && w'.drained == Some(true) && EverAccepted(w') == EverAccepted(w)
    decreases |InFlight(w)|
  {
    if InFlight(w) == {} {
      SlotsAndAnswers(ws, |ws| - 1);
      ws', w' := Go(ws, AllAnswered);
      StepSets(w, AllAnswered);
    } else {
      var q :| q in InFlight(w);
      ws', w' := SeeThrough(ws, w, q);
      ws', w' := DrainCanEnd(ws', w');
    }
  }

  /** What the drain reports is how it ended: true when its wait ended, with nothing in flight, and
      false when its deadline passed. */
  lemma DrainReports(ws: seq<World>, i: nat)
    requires Run(ws) && i + 1 < |ws| && ws[i].drained.None? && ws[i + 1].drained.Some?
    ensures ws[i + 1].drained == Some(true) <==> Enabled(ws[i], AllAnswered) && ws[i + 1] == Do(ws[i], AllAnswered)
    ensures ws[i + 1].drained == Some(false) <==> ws[i + 1] == Do(ws[i], TimeOut)
    ensures ws[i + 1].drained == Some(true) ==> ws[i].closing && InFlight(ws[i]) == {}
  {
    var a := TakenStep(ws, i);
    SlotsAndAnswers(ws, i);
  }
}

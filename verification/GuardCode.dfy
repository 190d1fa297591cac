/**
  One server's code, fed what its requests come back with: the requests it
  sends and the phase it ends in. Whatever the broker and the other servers do
  between its turns, it is a run of the step machine that sends the same requests
  and ends in the same phase, so what every run keeps holds of the code.
 */
module GuardCode {
  import opened Common
  import opened KvBucket
  import opened GuardProtocol
  import opened GuardCustody
  import opened GuardTenure

  /** What a request came back with, and when: the broker's answer, or an error, which retryUntil
      may take as definite. Once the inputs are used up, the caller's context has ended. */
  datatype Input = Answered(a: Reply, at: Time) | Failed(at: Time, definite: bool)

  datatype Outcome = Outcome(phase: Phase, sent: seq<Request>)

  function After(sent: seq<Request>, o: Outcome): Outcome {
    Outcome(o.phase, sent + o.sent)
  }

  // retryUntil ends an attempt of createGuardKey or probeGuardKey for good.
  predicate GivesUp(p: Point, i: Input) {
    i.Failed? && i.definite && (p.Creating? || p.Reading? || p.Overwriting?)
  }

  function React(m: Membership, id: Id, p: Point, i: Input): Next {
    match i
    case Answered(a, t) => Resume(m, id, t, p, a)
    case Failed(_, _) => Rest(if GivesUp(p, i) then Idle else Abandon(p))
  }

  // What the code does next: it is done, or the next request follows.
  datatype Turn = Stop(phase: Phase) | Go(at: Point)

  /** A refresh or a release is done at its next rest. An acquisition at rest goes on by itself:
      it retries, polls, and ends its watch when that is due. */
  function TurnOf(m: Membership, id: Id, taking: bool, p: Point, i: Input): Turn {
    match React(m, id, p, i)
    case Ask(p', _) => Go(p')
    case Rest(ph) =>
      match ph
      case Starting(mode) => if taking then Go(Creating(mode)) else Stop(ph)
      case Watching(mode, rev, start) =>
        if !taking then Stop(ph)
        else Go(if start + GUARD_TTL + WATCH_POLL <= i.at then Rechecking(mode, rev) else Polling(mode, rev, start))
      case _ => Stop(ph)
  }

  // The code from the request it waits for, through a whole acquisition, refresh or release.
  function Follow(m: Membership, id: Id, taking: bool, p: Point, ins: seq<Input>): (o: Outcome)
    ensures o.sent != [] && o.sent[0] == RequestAt(id, p)
    decreases |ins|
  {
    if ins == [] then Outcome(if taking then Idle else Abandon(p), [RequestAt(id, p)])
    else
      match TurnOf(m, id, taking, p, ins[0])
      case Stop(ph) => Outcome(ph, [RequestAt(id, p)])
      case Go(p') => After([RequestAt(id, p)], Follow(m, id, taking, p', ins[1..]))
  }

  function Take(m: Membership, id: Id, p: Point, ins: seq<Input>): Outcome {
    Follow(m, id, true, p, ins)
  }

  function Drive(m: Membership, id: Id, p: Point, ins: seq<Input>): Outcome {
    Follow(m, id, false, p, ins)
  }

  // ---- a turn is one or two steps of the machine ----

  // An input as the machine has it: a reply that arrived in time, or a request given up.
  ghost predicate Arrives(w: World, id: Id, i: Input) {
    && w.Phase(id).Waiting? && i.at == w.now
    && (i.Answered? ==> Enabled(w, Deliver(id)) && w.replies[w.Phase(id).k] == i.a)
  }

  function ArriveAction(id: Id, i: Input): Action {
    if i.Answered? then Deliver(id) else GiveUp(id)
  }

  // What the machine does next by itself during an acquisition.
  function MoveOn(w: World, id: Id, taking: bool, p: Point, i: Input): seq<Action> {
    match w.Phase(id)
    case Starting(_) => if GivesUp(p, i) then [Quit(id)] else if taking then [Retry(id)] else []
    case Watching(_, _, start) =>
      if !taking then [] else if start + GUARD_TTL + WATCH_POLL <= w.now then [EndWatch(id)] else [Poll(id)]
    case _ => []
  }

  ghost predicate AtTurn(w: World, id: Id, t: Turn) {
    match t
    case Stop(ph) => w.Phase(id) == ph && !ph.Waiting?
    case Go(p) =>
      var ph := w.Phase(id);
      ph.Waiting? && ph.at == p && ph.k in w.net && w.net[ph.k] == RequestAt(id, p)
  }

  // Where an own step of an acquisition leads.
  function MoveTo(ph: Phase, a: Action): Turn {
    match (ph, a)
    case (Starting(mode), Retry(_)) => Go(Creating(mode))
    case (Watching(mode, rev, _), EndWatch(_)) => Go(Rechecking(mode, rev))
    case (Watching(mode, rev, start), Poll(_)) => Go(Polling(mode, rev, start))
    case _ => Stop(Idle)
  }

  // A reply, or giving a request up, read as a turn: done, or waiting for the next request.
  function Arrived(m: Membership, id: Id, p: Point, i: Input): Turn {
    match if i.Answered? then Resume(m, id, i.at, p, i.a) else Rest(Abandon(p))
    case Rest(ph) => Stop(ph)
    case Ask(p', _) => Go(p')
  }

  lemma MoveIsTurn(m: Membership, w: World, id: Id, taking: bool, p: Point, i: Input)
    requires i.at == w.now && AtTurn(w, id, Arrived(m, id, p, i))
    ensures var acts, t := MoveOn(w, id, taking, p, i), TurnOf(m, id, taking, p, i);
            if acts == [] then t == Arrived(m, id, p, i)
            else
              && |acts| == 1 && IsMove(acts[0], id) && Enabled(w, acts[0])
              && t == MoveTo(w.Phase(id), acts[0]) && !w.Phase(id).Waiting?
  {
  }

  predicate IsMove(a: Action, id: Id) {
    a in {Quit(id), Retry(id), EndWatch(id), Poll(id)}
  }

  // ---- the requests a run sends ----

  // The request of id's that a step sends, if it does.
  function Sends(w: World, w': World, id: Id): seq<Request> {
    var k := w.nextKey;
    if w'.nextKey == k + 1 && k in w'.net && w'.net[k].who == id then [w'.net[k]] else []
  }

  // Those a run sends from world `from` on.
  function Sent(ws: seq<World>, from: nat, id: Id): seq<Request> {
    if |ws| <= from + 1 then []
    else Sent(ws[..|ws| - 1], from, id) + Sends(ws[|ws| - 2], ws[|ws| - 1], id)
  }

  lemma SentGrows(ws: seq<World>, w: World, from: nat, id: Id)
    requires from < |ws|
    ensures Sent(ws + [w], from, id) == Sent(ws, from, id) + Sends(ws[|ws| - 1], w, id)
  {
    assert (ws + [w])[..|ws|] == ws;
  }

  // An action that is not id's: the clock's, the broker's, another server's.
  predicate Others(a: Action, id: Id) {
    a.Tick? || a.Expire? || a.Handle? || a.id != id
  }

  lemma OthersStep(m: Membership, w: World, a: Action, id: Id)
    requires Traffic(m, w) && Enabled(w, a) && Others(a, id)
    ensures Do(m, w, a).Phase(id) == w.Phase(id) && Sends(w, Do(m, w, a), id) == []
  {
    if !a.Handle? && !a.Tick? && !a.Expire? {
      OthersEffect(m, w, a, id);
      StampFrame(Effect(m, w, a));
    }
  }

  lemma OthersEffect(m: Membership, w: World, a: Action, id: Id)
    requires Traffic(m, w) && Enabled(w, a) && !a.Handle? && !a.Tick? && !a.Expire? && a.id != id
    ensures Effect(m, w, a).Phase(id) == w.Phase(id) && Sends(w, Effect(m, w, a), id) == []
  {
  }

  // ---- the code in any surroundings is a run ----

  // The others, step by step, get from w to w'.
  ghost predicate Leads(m: Membership, w: World, id: Id, acts: seq<Action>, w': World)
    decreases |acts|
  {
    if acts == [] then w' == w
    else Others(acts[0], id) && Enabled(w, acts[0]) && Leads(m, Do(m, w, acts[0]), id, acts[1..], w')
  }

  // One turn in the run: the world in which the input arrives, the others' actions before it, and the turn's worlds.
  datatype Scene = Scene(acts: seq<Action>, came: World, arrived: World, done: World)

  // The server's own steps of a turn.
  ghost predicate Steps(m: Membership, w: World, w1: World, w2: World, id: Id, taking: bool, i: Input) {
    && Enabled(w, ArriveAction(id, i)) && w1 == Do(m, w, ArriveAction(id, i))
    && var acts := MoveOn(w1, id, taking, w.Phase(id).at, i);
       if acts == [] then w2 == w1 else Enabled(w1, acts[0]) ==> w2 == Do(m, w1, acts[0])
  }

  /** The surroundings in which the code, waiting in w, gets these inputs: before each, the others
      do as the scene says, and then the server takes its own steps. */
  ghost predicate Gets(m: Membership, w: World, id: Id, taking: bool, ins: seq<Input>, scenes: seq<Scene>)
    decreases |ins|
  {
    && |scenes| == |ins|
    && (ins != [] ==>
          && Comes(m, w, id, taking, ins[0], scenes[0])
          && (TurnOf(m, id, taking, scenes[0].came.Phase(id).at, ins[0]).Go? ==>
                Gets(m, scenes[0].done, id, taking, ins[1..], scenes[1..])))
  }

  ghost predicate Comes(m: Membership, w: World, id: Id, taking: bool, i: Input, s: Scene) {
    && Leads(m, w, id, s.acts, s.came)
    && Arrives(s.came, id, i)
    && Steps(m, s.came, s.arrived, s.done, id, taking, i)
  }

  // A run went on to world w, with id sending `more` meanwhile.
  ghost predicate WentOn(ws: seq<World>, ws': seq<World>, from: nat, id: Id, w: World, more: seq<Request>) {
    && ws != [] && ws <= ws'
    && ws'[|ws'| - 1] == w
    && Sent(ws', from, id) == Sent(ws, from, id) + more
  }

  lemma WentOnTwice(ws: seq<World>, ws1: seq<World>, ws2: seq<World>, from: nat, id: Id, w1: World, w2: World,
                    a: seq<Request>, b: seq<Request>)
    requires WentOn(ws, ws1, from, id, w1, a) && WentOn(ws1, ws2, from, id, w2, b)
    ensures WentOn(ws, ws2, from, id, w2, a + b)
  {
    assert Sent(ws, from, id) + a + b == Sent(ws, from, id) + (a + b);
  }

  lemma Grow(m: Membership, ws: seq<World>, from: nat, a: Action, id: Id) returns (ws': seq<World>)
    requires Run(m, ws) && from < |ws| && Enabled(ws[|ws| - 1], a)
    ensures var w := Do(m, ws[|ws| - 1], a); Run(m, ws') && WentOn(ws, ws', from, id, w, Sends(ws[|ws| - 1], w, id))
  {
    RunGrows(m, ws, a);
    ws' := ws + [Do(m, ws[|ws| - 1], a)];
    SentGrows(ws, ws'[|ws|], from, id);
  }

  lemma {:induction false} OthersRun(m: Membership, ws: seq<World>, from: nat, id: Id, acts: seq<Action>, w: World)
    returns (ws': seq<World>)
    requires Run(m, ws) && from < |ws| && Leads(m, ws[|ws| - 1], id, acts, w)
    ensures Run(m, ws') && WentOn(ws, ws', from, id, w, []) && w.Phase(id) == ws[|ws| - 1].Phase(id)
    decreases |acts|
  {
    if acts == [] {
      ws' := ws;
      assert Sent(ws, from, id) + [] == Sent(ws, from, id);
    } else {
      var w0 := ws[|ws| - 1];
      RunKeeps(m, ws, |ws| - 1);
      OthersStep(m, w0, acts[0], id);
      var ws1 := Grow(m, ws, from, acts[0], id);
      ws' := OthersRun(m, ws1, from, id, acts[1..], w);
      WentOnTwice(ws, ws1, ws', from, id, Do(m, w0, acts[0]), w, [], []);
    }
  }

  function RequestOf(id: Id, t: Turn): seq<Request> {
    if t.Go? then [RequestAt(id, t.at)] else []
  }

  // An own step after which the server is where turn t says, and which sends t's request.
  ghost predicate Takes(m: Membership, w: World, a: Action, w': World, id: Id, t: Turn) {
    && Enabled(w, a) && w' == Do(m, w, a)
    && w'.now == w.now
    && AtTurn(w', id, t)
    && Sends(w, w', id) == RequestOf(id, t)
  }

  lemma ArriveStep(m: Membership, w: World, id: Id, i: Input)
    requires Traffic(m, w) && Arrives(w, id, i)
    ensures Takes(m, w, ArriveAction(id, i), Do(m, w, ArriveAction(id, i)), id, Arrived(m, id, w.Phase(id).at, i))
  {
  }

  lemma MoveStep(m: Membership, w: World, id: Id, a: Action)
    requires Traffic(m, w) && IsMove(a, id) && Enabled(w, a)
    ensures Takes(m, w, a, Do(m, w, a), id, MoveTo(w.Phase(id), a))
  {
  }

  // One turn of the code: the worlds after it arrived and after it moved on.
  ghost predicate TurnTakes(m: Membership, w: World, w1: World, w2: World, id: Id, taking: bool, i: Input) {
    w.Phase(id).Waiting? &&
    var p, a := w.Phase(id).at, ArriveAction(id, i);
    && Takes(m, w, a, w1, id, Arrived(m, id, p, i))
    && var acts, t := MoveOn(w1, id, taking, p, i), TurnOf(m, id, taking, p, i);
       if acts == [] then w2 == w1 && t == Arrived(m, id, p, i)
       else Sends(w, w1, id) == [] && Takes(m, w1, acts[0], w2, id, t)
  }

  /** Every turn of the code is one or two enabled steps of the machine, after which the machine
      is where the code is, with the same request sent. */
  lemma TurnIsSteps(m: Membership, w: World, w1: World, w2: World, id: Id, taking: bool, i: Input)
    requires Inv(m, w) && Arrives(w, id, i) && Steps(m, w, w1, w2, id, taking, i)
    ensures TurnTakes(m, w, w1, w2, id, taking, i)
  {
    var p := w.Phase(id).at;
    ArriveStep(m, w, id, i);
    MoveIsTurn(m, w1, id, taking, p, i);
    var acts := MoveOn(w1, id, taking, p, i);
    if acts != [] {
      StepKeeps(m, w, ArriveAction(id, i));
      MoveStep(m, w1, id, acts[0]);
    }
  }

  lemma TurnRun(m: Membership, ws: seq<World>, from: nat, w: World, w1: World, w2: World, id: Id, taking: bool,
                i: Input)
    returns (ws': seq<World>)
    requires Run(m, ws) && from < |ws| && w == ws[|ws| - 1] && Arrives(w, id, i) && Steps(m, w, w1, w2, id, taking, i)
    ensures Run(m, ws')
    ensures var t := TurnOf(m, id, taking, w.Phase(id).at, i);
            AtTurn(w2, id, t) && WentOn(ws, ws', from, id, w2, RequestOf(id, t))
  {
    RunKeeps(m, ws, |ws| - 1);
    TurnIsSteps(m, w, w1, w2, id, taking, i);
    ws' := TakenRun(m, ws, from, w, w1, w2, id, taking, i);
  }

  lemma TakenRun(m: Membership, ws: seq<World>, from: nat, w: World, w1: World, w2: World, id: Id, taking: bool,
                 i: Input)
    returns (ws': seq<World>)
    requires Run(m, ws) && from < |ws| && w == ws[|ws| - 1] && TurnTakes(m, w, w1, w2, id, taking, i)
    ensures Run(m, ws')
    ensures var t := TurnOf(m, id, taking, w.Phase(id).at, i);
            AtTurn(w2, id, t) && WentOn(ws, ws', from, id, w2, RequestOf(id, t))
  {
    ws' := TakesRun(m, ws, from, w, ArriveAction(id, i), w1, id, Sends(w, w1, id));
    var acts := MoveOn(w1, id, taking, w.Phase(id).at, i);
    if acts != [] {
      var ws1 := ws';
      ws' := TakesRun(m, ws1, from, w1, acts[0], w2, id, Sends(w1, w2, id));
      WentOnTwice(ws, ws1, ws', from, id, w1, w2, [], Sends(w1, w2, id));
    }
  }

  lemma TakesRun(m: Membership, ws: seq<World>, from: nat, w: World, a: Action, w': World, id: Id, sent: seq<Request>)
    returns (ws': seq<World>)
    requires Run(m, ws) && from < |ws| && w == ws[|ws| - 1] && Enabled(w, a) && w' == Do(m, w, a)
    requires sent == Sends(w, w', id)
    ensures Run(m, ws') && WentOn(ws, ws', from, id, w', sent)
  {
    ws' := Grow(m, ws, from, a, id);
  }

  lemma SceneRun(m: Membership, ws: seq<World>, from: nat, id: Id, taking: bool, p: Point, i: Input, s: Scene)
    returns (ws': seq<World>)
    requires Run(m, ws) && from < |ws| && AtTurn(ws[|ws| - 1], id, Go(p)) && Comes(m, ws[|ws| - 1], id, taking, i, s)
    ensures Run(m, ws') && s.came.Phase(id).Waiting? && s.came.Phase(id).at == p
    ensures var t := TurnOf(m, id, taking, p, i);
            AtTurn(s.done, id, t) && WentOn(ws, ws', from, id, s.done, RequestOf(id, t))
  {
    var ws1 := OthersRun(m, ws, from, id, s.acts, s.came);
    ws' := TurnRun(m, ws1, from, s.came, s.arrived, s.done, id, taking, i);
    var more := RequestOf(id, TurnOf(m, id, taking, p, i));
    WentOnTwice(ws, ws1, ws', from, id, s.came, s.done, [], more);
    assert [] + more == more;
  }

  // An acquisition stays one.
  lemma TakingStays(m: Membership, id: Id, p: Point, i: Input)
    requires Acquires(p)
    ensures var t := TurnOf(m, id, true, p, i); t.Go? ==> Acquires(t.at)
  {
  }

  // When the context ends, the machine gives the request up, and an acquisition with it.
  lemma ContextEnds(m: Membership, ws: seq<World>, from: nat, id: Id, taking: bool, p: Point)
    returns (ws': seq<World>, w: World)
    requires Run(m, ws) && from < |ws| && AtTurn(ws[|ws| - 1], id, Go(p)) && (taking ==> Acquires(p))
    ensures Run(m, ws') && WentOn(ws, ws', from, id, w, [])
    ensures w.Phase(id) == if taking then Idle else Abandon(p)
  {
    var w0 := ws[|ws| - 1];
    RunKeeps(m, ws, |ws| - 1);
    ArriveStep(m, w0, id, Failed(w0.now, false));
    w := Do(m, w0, GiveUp(id));
    ws' := TakesRun(m, ws, from, w0, GiveUp(id), w, id, []);
    if taking && !Abandon(p).Idle? {
      var ws1, w1 := ws', w;
      ws', w := AcquisitionEnds(m, ws1, from, id, w1);
      WentOnTwice(ws, ws1, ws', from, id, w1, w, [], []);
    }
  }

  lemma AcquisitionEnds(m: Membership, ws: seq<World>, from: nat, id: Id, w: World) returns (ws': seq<World>, w': World)
    requires Run(m, ws) && from < |ws| && w == ws[|ws| - 1] && (w.Phase(id).Starting? || w.Phase(id).Watching?)
    ensures Run(m, ws') && WentOn(ws, ws', from, id, w', []) && w'.Phase(id) == Idle
  {
    RunKeeps(m, ws, |ws| - 1);
    MoveStep(m, w, id, Quit(id));
    w' := Do(m, w, Quit(id));
    ws' := TakesRun(m, ws, from, w, Quit(id), w', id, []);
  }

  // The run went on to where the code ends, sending what the code sent after its first request.
  ghost predicate Ends(ws: seq<World>, ws': seq<World>, from: nat, id: Id, o: Outcome) {
    && o.sent != [] && ws' != []
    && WentOn(ws, ws', from, id, ws'[|ws'| - 1], o.sent[1..])
    && ws'[|ws'| - 1].Phase(id) == o.phase
  }

  /** The code is a run of the machine: in whatever surroundings it gets whatever inputs, there is
      a run that goes on from where the code waits, in which the server sends the code's requests in
      the code's order and ends where the code ends. */
  lemma {:induction false} CodeIsRun(m: Membership, ws: seq<World>, from: nat, id: Id, taking: bool, p: Point,
                                     ins: seq<Input>, scenes: seq<Scene>) returns (ws': seq<World>)
    requires Run(m, ws) && from < |ws| && AtTurn(ws[|ws| - 1], id, Go(p)) && (taking ==> Acquires(p))
    requires Gets(m, ws[|ws| - 1], id, taking, ins, scenes)
    ensures Run(m, ws') && Ends(ws, ws', from, id, Follow(m, id, taking, p, ins))
    decreases |ins|
  {
    var q := RequestAt(id, p);
    if ins == [] {
      var w;
      ws', w := ContextEnds(m, ws, from, id, taking, p);
      EndsNow(ws, ws', from, id, w, q);
      return;
    }
    var ws1, w, t := CodeTurn(m, ws, from, id, taking, p, ins, scenes);
    if t.Stop? {
      EndsNow(ws, ws1, from, id, w, q);
      return ws1;
    }
    var o := Follow(m, id, taking, t.at, ins[1..]);
    ws' := CodeIsRun(m, ws1, from, id, taking, t.at, ins[1..], scenes[1..]);
    EndsNext(ws, ws1, ws', from, id, w, q, o);
  }

  lemma EndsNow(ws: seq<World>, ws': seq<World>, from: nat, id: Id, w: World, q: Request)
    requires WentOn(ws, ws', from, id, w, [])
    ensures Ends(ws, ws', from, id, Outcome(w.Phase(id), [q]))
  {
    assert [q][1..] == [];
  }

  lemma EndsNext(ws: seq<World>, ws1: seq<World>, ws': seq<World>, from: nat, id: Id, w: World, q: Request, o: Outcome)
    requires o.sent != [] && WentOn(ws, ws1, from, id, w, [o.sent[0]]) && Ends(ws1, ws', from, id, o)
    ensures Ends(ws, ws', from, id, After([q], o))
  {
    WentOnTwice(ws, ws1, ws', from, id, w, ws'[|ws'| - 1], [o.sent[0]], o.sent[1..]);
    assert [o.sent[0]] + o.sent[1..] == o.sent && ([q] + o.sent)[1..] == o.sent;
  }

  lemma CodeTurn(m: Membership, ws: seq<World>, from: nat, id: Id, taking: bool, p: Point, ins: seq<Input>,
                 scenes: seq<Scene>)
    returns (ws': seq<World>, w: World, t: Turn)
    requires Run(m, ws) && from < |ws| && AtTurn(ws[|ws| - 1], id, Go(p)) && (taking ==> Acquires(p))
    requires ins != [] && Gets(m, ws[|ws| - 1], id, taking, ins, scenes)
    ensures Run(m, ws') && t == TurnOf(m, id, taking, p, ins[0])
    ensures AtTurn(w, id, t) && WentOn(ws, ws', from, id, w, RequestOf(id, t))
    ensures t.Go? ==> Gets(m, w, id, taking, ins[1..], scenes[1..]) && (taking ==> Acquires(t.at))
  {
    ws' := SceneRun(m, ws, from, id, taking, p, ins[0], scenes[0]);
    w := scenes[0].done;
    t := TurnOf(m, id, taking, p, ins[0]);
    if taking {
      TakingStays(m, id, p, ins[0]);
    }
  }

  /** What every run keeps holds of the code: when an acquisition's code holds the guard, its
      revision is its own write and no other held guard has it. */
  lemma TakenKeyIsOwn(m: Membership, ws: seq<World>, id: Id, p: Point, ins: seq<Input>, scenes: seq<Scene>, l: Lease)
    returns (ws': seq<World>, w: World)
    requires Run(m, ws) && AtTurn(ws[|ws| - 1], id, Go(p)) && Acquires(p)
    requires Gets(m, ws[|ws| - 1], id, true, ins, scenes) && Take(m, id, p, ins).phase == Holding(l)
    ensures Run(m, ws') && ws <= ws' && w == ws'[|ws'| - 1]
    ensures Held(w, id, l) && OwnPut(w, id, l.rev) && forall x, y :: x != id && Held(w, x, y) ==> y.rev != l.rev
  {
    ws' := CodeIsRun(m, ws, |ws| - 1, id, true, p, ins, scenes);
    w := ws'[|ws'| - 1];
    Fencing(m, ws', |ws'| - 1, |ws'| - 1, id, l);
  }
}

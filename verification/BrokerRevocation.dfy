/**
  Revoking a worker on a cluster: a first pass that kicks its connections, a
  wait past the cluster's auth timeout, and a final pass in which every known
  node must answer. Connections are followed as a history: when each was
  authorized, when the responder read the store for it, and when it was placed and closed.
 */
module BrokerRevocation {
  import opened Common

  const SYSTEM_REPLY_WINDOW: Time := SECOND
  const KICK_TIMEOUT: Time := SECOND
  const REVOKE_SETTLE_MARGIN: Time := SECOND / 4
  const REVOKE_BUDGET_SLACK: Time := 2 * SECOND

  // ---- clusterView ----

  datatype View = View(nodes: nat, authTimeout: Time)

  function Merge(v: View, o: View): View {
    View(Max(v.nodes, o.nodes), Max(v.authTimeout, o.authTimeout))
  }

  predicate AtMost(v: View, o: View) {
    v.nodes <= o.nodes && v.authTimeout <= o.authTimeout
  }

  // r.cluster after a sequence of merges, in the order the revocations got to make them.
  function MergeAll(v: View, vs: seq<View>): View
    decreases |vs|
  {
    if vs == [] then v else MergeAll(Merge(v, vs[0]), vs[1..])
  }

  // The merged view bounds everything merged, and nothing smaller does.
  lemma {:induction false} MergeAllIsLeast(v: View, vs: seq<View>, bound: View)
    ensures AtMost(v, MergeAll(v, vs)) && forall i :: 0 <= i < |vs| ==> AtMost(vs[i], MergeAll(v, vs))
    ensures AtMost(v, bound) && (forall i :: 0 <= i < |vs| ==> AtMost(vs[i], bound)) ==> AtMost(MergeAll(v, vs), bound)
    decreases |vs|
  {
    if vs != [] {
      MergeAllIsLeast(Merge(v, vs[0]), vs[1..], bound);
      assert forall i :: 1 <= i < |vs| ==> vs[i] == vs[1..][i - 1];
    }
  }

  /** Concurrent revocations merge what they learned in any order, and some more than once: the
      outcome depends only on what was learned, and never falls below what was known. */
  lemma MergeOrderDoesNotMatter(v: View, vs: seq<View>, us: seq<View>)
    requires forall x :: x in vs <==> x in us
    ensures MergeAll(v, vs) == MergeAll(v, us) && AtMost(v, MergeAll(v, vs))
  {
    var a, b := MergeAll(v, vs), MergeAll(v, us);
    MergeAllIsLeast(v, vs, b);
    MergeAllIsLeast(v, us, a);
    forall i | 0 <= i < |vs| ensures AtMost(vs[i], b) {
      assert vs[i] in us;
      var j :| 0 <= j < |us| && us[j] == vs[i];
    }
    forall i | 0 <= i < |us| ensures AtMost(us[i], a) {
      assert us[i] in vs;
      var j :| 0 <= j < |vs| && vs[j] == us[i];
    }
  }

  // ---- one pass ----

  datatype Conn = Conn(cid: nat, user: string)

  // What one node answered a CONNZ request with, and when.
  datatype Answer = Unreadable | Listed(node: nat, at: Time, conns: seq<Conn>)

  datatype Kick = Kick(node: nat, cid: nat)

  // Whether a kick was confirmed: the node answered, and no longer has the connection.
  type Confirmed = Kick -> bool

  /** One kickPass: the answers that came within the window, whether the request itself went
      well, and how long it took. */
  datatype Pass = Pass(connected: bool, answers: seq<Answer>, pinged: bool, took: Time)

  // The connections of worker a node listed, in order.
  function KicksOf(worker: string, a: Answer): seq<Kick> {
    if a.Unreadable? then [] else KicksIn(worker, a.node, a.conns, |a.conns|)
  }

  // Those among the first n.
  function KicksIn(worker: string, node: nat, conns: seq<Conn>, n: nat): seq<Kick>
    requires n <= |conns|
  {
    if n == 0 then []
    else
      var c := conns[n - 1];
      KicksIn(worker, node, conns, n - 1) + if c.user == worker then [Kick(node, c.cid)] else []
  }

  // Every kick of a pass, from its first n answers.
  function AllKicks(worker: string, answers: seq<Answer>, n: nat): seq<Kick>
    requires n <= |answers|
  {
    if n == 0 then [] else AllKicks(worker, answers, n - 1) + KicksOf(worker, answers[n - 1])
  }

  // A pass without a connection asks nobody.
  function PassKicks(worker: string, p: Pass): seq<Kick> {
    if p.connected then AllKicks(worker, p.answers, |p.answers|) else []
  }

  // A node's answer that gives the pass nothing to complain of.
  predicate GoodAnswer(worker: string, ok: Confirmed, a: Answer) {
    a.Listed? && forall i :: 0 <= i < |a.conns| ==> a.conns[i].user == worker && ok(Kick(a.node, a.conns[i].cid))
  }

  // How many of the first n answers list connections.
  function ListedCount(answers: seq<Answer>, n: nat): nat
    requires n <= |answers|
  {
    if n == 0 then 0 else ListedCount(answers, n - 1) + if answers[n - 1].Listed? then 1 else 0
  }

  method KickAll(worker: string, a: Answer, ok: Confirmed) returns (kicks: seq<Kick>, failed: bool)
    requires a.Listed?
    ensures kicks == KicksOf(worker, a)
    ensures !failed <==> GoodAnswer(worker, ok, a)
  {
    kicks, failed := [], false;
    for i := 0 to |a.conns|
      invariant kicks == KicksIn(worker, a.node, a.conns, i)
      invariant !failed <==> forall j :: 0 <= j < i ==> a.conns[j].user == worker && ok(Kick(a.node, a.conns[j].cid))
    {
      var ci := a.conns[i];
      if ci.user != worker {
        failed := true;
      } else {
        kicks := kicks + [Kick(a.node, ci.cid)];
        if !ok(Kick(a.node, ci.cid)) {
          failed := true;
        }
      }
    }
  }

  /** One node's answer: whether it listed its connections, the kicks it leads to, and whether it
      gave the pass nothing to complain of. */
  method TakeAnswer(worker: string, a: Answer, ok: Confirmed) returns (listed: nat, kicks: seq<Kick>, good: bool)
    ensures listed == (if a.Listed? then 1 else 0) && kicks == KicksOf(worker, a)
    ensures good <==> GoodAnswer(worker, ok, a)
  {
    if a.Unreadable? {
      return 0, [], false;
    }
    var failed;
    kicks, failed := KickAll(worker, a, ok);
    return 1, kicks, !failed;
  }

  // The first n answers are good.
  predicate GoodUpTo(worker: string, ok: Confirmed, answers: seq<Answer>, n: nat)
    requires n <= |answers|
  {
    n == 0 || (GoodUpTo(worker, ok, answers, n - 1) && GoodAnswer(worker, ok, answers[n - 1]))
  }

  lemma {:induction false} GoodUpToAll(worker: string, ok: Confirmed, answers: seq<Answer>, n: nat)
    requires n <= |answers|
    ensures GoodUpTo(worker, ok, answers, n) <==> forall i :: 0 <= i < n ==> GoodAnswer(worker, ok, answers[i])
  {
    if n > 0 {
      GoodUpToAll(worker, ok, answers, n - 1);
    }
  }

  lemma {:induction false} GoodAreListed(worker: string, ok: Confirmed, answers: seq<Answer>, n: nat)
    requires n <= |answers| && GoodUpTo(worker, ok, answers, n)
    ensures ListedCount(answers, n) == n
  {
    if n > 0 {
      GoodAreListed(worker, ok, answers, n - 1);
    }
  }

  /** kickPass: it counts the nodes that listed their connections and kicks the worker's, and it
      succeeds exactly when the request went out, at least one node answered, every answer was
      a list of the worker's connections alone, and every kick was confirmed. */
  method KickPass(worker: string, p: Pass, ok: Confirmed) returns (answered: nat, kicks: seq<Kick>, success: bool)
    ensures p.connected ==> answered == ListedCount(p.answers, |p.answers|)
    ensures success <==> p.connected && p.pinged && p.answers != [] && GoodUpTo(worker, ok, p.answers, |p.answers|)
    ensures kicks == PassKicks(worker, p)
  {
    answered, kicks := 0, [];
    if !p.connected {
      return 0, [], false;
    }
    var failed := false;
    for i := 0 to |p.answers|
      invariant answered == ListedCount(p.answers, i)
      invariant !failed <==> GoodUpTo(worker, ok, p.answers, i)
      invariant kicks == AllKicks(worker, p.answers, i)
    {
      var listed, more, good := TakeAnswer(worker, p.answers[i], ok);
      answered, kicks, failed := answered + listed, kicks + more, failed || !good;
    }
    if !failed {
      GoodAreListed(worker, ok, p.answers, |p.answers|);
    }
    success := p.pinged && !failed && answered != 0;
  }

  // ---- Revoke ----

  // A pass never outlasts its reply window and the kicks begun in it.
  predicate InTime(p: Pass) {
    p.took <= SYSTEM_REPLY_WINDOW + KICK_TIMEOUT
  }

  // Zero when Revoke does not wait: worker authentication off, or no system credential.
  function RevokeBudget(auth: bool, system: bool, v: View): (b: Time)
    ensures b == if auth && system then v.authTimeout + 4250 * MILLISECOND else 0
  {
    if !auth || !system then 0
    else v.authTimeout + REVOKE_SETTLE_MARGIN + SYSTEM_REPLY_WINDOW + KICK_TIMEOUT + REVOKE_BUDGET_SLACK
  }

  // A pass that went out and got answers, all of them good.
  predicate CleanPass(worker: string, ok: Confirmed, p: Pass) {
    && p.connected && p.pinged && p.answers != []
    && forall i :: 0 <= i < |p.answers| ==> GoodAnswer(worker, ok, p.answers[i])
  }

  // A clean pass in which at least n nodes answered.
  predicate FullPass(worker: string, ok: Confirmed, p: Pass, n: nat) {
    CleanPass(worker, ok, p) && |p.answers| >= n
  }

  // v is the least view that covers what was known and what was learned.
  ghost predicate LeastView(v: View, known: View, learned: Option<View>) {
    && AtMost(known, v) && (learned.Some? ==> AtMost(learned.value, v))
    && forall u :: AtMost(known, u) && (learned.Some? ==> AtMost(learned.value, u)) ==> AtMost(v, u)
  }

  // One kickPass, judged against the number of nodes it must hear from.
  method CountedPass(worker: string, p: Pass, ok: Confirmed, nodes: nat) returns (kicks: seq<Kick>, full: bool)
    ensures kicks == PassKicks(worker, p)
    ensures full <==> FullPass(worker, ok, p, nodes)
  {
    var answered, pass;
    answered, kicks, pass := KickPass(worker, p, ok);
    GoodUpToAll(worker, ok, p.answers, |p.answers|);
    if pass {
      GoodAreListed(worker, ok, p.answers, |p.answers|);
    }
    full := pass && answered >= nodes;
  }

  /** Remote.Revoke, with worker authentication and a system credential or without. `started` says
      that there is a system connection; `learned` is what askCluster learned beside the first
      pass, None when it failed; `canceled` that the caller's context ended during the wait. Where it has
      something to do, it succeeds exactly when the wait was not cut short and both passes heard from at
      least as many nodes as are known, each without a complaint. */
  method Revoke(auth: bool, system: bool, started: bool, worker: string, began: Time, known: View,
                first: Pass, learned: Option<View>, canceled: bool, last: Pass, ok: Confirmed)
    returns (success: bool, view: View, lastBegan: Time, ended: Time, kicks: seq<Kick>)
    ensures success <==>
            !auth || (worker != "" &&
                      (!system || (started && !canceled && FullPass(worker, ok, first, view.nodes) &&
                                   FullPass(worker, ok, last, view.nodes))))
    ensures if auth && system && started && worker != "" then LeastView(view, known, learned) else view == known
    ensures success && auth && system ==>
              && lastBegan == Max(began + first.took, began + view.authTimeout + REVOKE_SETTLE_MARGIN)
              && ended == lastBegan + last.took
    ensures InTime(first) && InTime(last) ==> ended <= began + RevokeBudget(auth, system, view)
    ensures InTime(first) && InTime(last) && (learned.Some? ==> learned.value.authTimeout <= known.authTimeout) ==>
              ended <= began + RevokeBudget(auth, system, known)
    ensures kicks == if !(auth && system && started && worker != "") then []
                     else if canceled || !FullPass(worker, ok, first, view.nodes) then PassKicks(worker, first)
                     else PassKicks(worker, first) + PassKicks(worker, last)
  {
    view, lastBegan, ended, kicks := known, began, began, [];
    if !auth {
      success := true;
      return;
    }
    if worker == "" {
      success := false;
      return;
    }
    if !system {
      success := true;
      return;
    }
    if !started {
      success := false;
      return;
    }
    view := Merge(known, if learned.Some? then learned.value else View(0, 0));
    kicks, success := CountedPass(worker, first, ok, view.nodes);
    ended := began + first.took;
    if !success {
      return;
    }
    lastBegan := Max(ended, began + view.authTimeout + REVOKE_SETTLE_MARGIN);
    if canceled {
      success, ended := false, lastBegan;
      return;
    }
    ended := lastBegan + last.took;
    var more;
    more, success := CountedPass(worker, last, ok, view.nodes);
    kicks := kicks + more;
  }

  // ---- what a successful revocation means ----

  /** One connection's history: its authorization began, the responder read the store for it,
      the node placed it, and it was closed, if it was. */
  datatype Session = Session(node: nat, cid: nat, user: string, began: Time, read: Time, placed: Time,
                             closed: Option<Time>)

  predicate OpenAt(s: Session, t: Time) {
    s.placed <= t && (s.closed.None? || t < s.closed.value)
  }

  /** How the cluster behaves: a node gives an authorization up after its auth timeout, the
      margin covering the moment between its answer and the placement; and a store read that
      comes after the revocation finds no credential. */
  ghost predicate Honest(worker: string, revoked: Time, timeout: Time, s: Session) {
    && s.began <= s.read <= s.placed <= s.began + timeout + REVOKE_SETTLE_MARGIN
    && (s.user == worker ==> s.read < revoked)
  }

  /** The final pass tells the truth: a node lists every connection of the worker it has when it
      answers, and a confirmed kick means the connection is closed by the time Revoke returns. */
  ghost predicate Truthful(worker: string, sessions: set<Session>, p: Pass, ok: Confirmed, began: Time, ended: Time) {
    forall i :: 0 <= i < |p.answers| && p.answers[i].Listed? ==>
      && began <= p.answers[i].at <= ended
      && forall s :: s in sessions && s.node == p.answers[i].node ==>
           && (s.user == worker && OpenAt(s, p.answers[i].at) ==> Conn(s.cid, s.user) in p.answers[i].conns)
           && (ok(Kick(s.node, s.cid)) && Conn(s.cid, s.user) in p.answers[i].conns ==>
                 s.closed.Some? && s.closed.value <= ended)
  }

  // Each node answers a request at most once.
  ghost predicate OncePerNode(answers: seq<Answer>) {
    forall i, j :: 0 <= i < j < |answers| && answers[i].Listed? && answers[j].Listed? ==>
      answers[i].node != answers[j].node
  }

  function NodesOf(answers: seq<Answer>): set<nat> {
    set i | 0 <= i < |answers| && answers[i].Listed? :: answers[i].node
  }

  // Nodes answer at most once, so as many answers as nodes are answers from all of them.
  lemma {:induction false} DistinctAnswers(answers: seq<Answer>)
    requires forall i :: 0 <= i < |answers| ==> answers[i].Listed?
    requires OncePerNode(answers)
    ensures |NodesOf(answers)| == |answers|
  {
    if answers != [] {
      var n := |answers| - 1;
      DistinctAnswers(answers[..n]);
      assert NodesOf(answers) == NodesOf(answers[..n]) + {answers[n].node};
      assert answers[n].node !in NodesOf(answers[..n]);
    }
  }

  lemma FullSubset(a: set<nat>, b: set<nat>)
    requires a <= b && |a| >= |b|
    ensures a == b
  {
    assert b == a + (b - a);
    assert |b| == |a| + |b - a|;
  }

  lemma EveryNodeAnswered(cluster: set<nat>, answers: seq<Answer>, node: nat) returns (i: nat)
    requires forall i :: 0 <= i < |answers| ==> answers[i].Listed? && answers[i].node in cluster
    requires OncePerNode(answers)
    requires |answers| >= |cluster| && node in cluster
    ensures i < |answers| && answers[i].node == node
  {
    DistinctAnswers(answers);
    FullSubset(NodesOf(answers), cluster);
    i :| 0 <= i < |answers| && answers[i].Listed? && answers[i].node == node;
  }

  /** Revocation: when the credential was revoked in the store before Revoke began, what Revoke
      knew of the cluster bounds its size and its auth timeouts, and the final pass met Revoke's
      conditions for success, then from its return on no node holds a connection of the worker. */
  lemma RevokedWorkerIsGone(worker: string, revoked: Time, began: Time, lastBegan: Time, ended: Time, view: View,
                            cluster: set<nat>, timeout: nat -> Time, sessions: set<Session>, last: Pass, ok: Confirmed,
                            s: Session, t: Time)
    requires revoked <= began && lastBegan >= began + view.authTimeout + REVOKE_SETTLE_MARGIN && ended <= t
    requires forall i :: 0 <= i < |last.answers| ==>
             GoodAnswer(worker, ok, last.answers[i]) && last.answers[i].node in cluster
    requires |last.answers| >= view.nodes >= |cluster|
    requires OncePerNode(last.answers)
    requires Truthful(worker, sessions, last, ok, lastBegan, ended)
    requires s in sessions && s.node in cluster && timeout(s.node) <= view.authTimeout
    requires Honest(worker, revoked, timeout(s.node), s)
    requires s.user == worker
    ensures !OpenAt(s, t)
  {
    var i := EveryNodeAnswered(cluster, last.answers, s.node);
    var a := last.answers[i];
    assert s.placed <= a.at;
    if OpenAt(s, a.at) {
      assert Conn(s.cid, s.user) in a.conns;
      var j :| 0 <= j < |a.conns| && a.conns[j] == Conn(s.cid, s.user);
      assert ok(Kick(a.node, a.conns[j].cid));
    }
  }

  lemma {:induction false} KicksOnlyListed(worker: string, node: nat, conns: seq<Conn>, n: nat, k: Kick)
    requires n <= |conns| && k in KicksIn(worker, node, conns, n)
    ensures k.node == node && Conn(k.cid, worker) in conns
  {
    if n > 0 && k in KicksIn(worker, node, conns, n - 1) {
      KicksOnlyListed(worker, node, conns, n - 1, k);
    }
  }

  lemma {:induction false} KickOfAnswer(worker: string, answers: seq<Answer>, n: nat, k: Kick) returns (i: nat)
    requires n <= |answers| && k in AllKicks(worker, answers, n)
    ensures i < n && answers[i].Listed? && k in KicksOf(worker, answers[i])
  {
    if k in KicksOf(worker, answers[n - 1]) {
      i := n - 1;
    } else {
      i := KickOfAnswer(worker, answers, n - 1, k);
    }
  }

  // A node lists its connections under the users they were authorized as.
  ghost predicate NamesTruly(sessions: set<Session>, a: Answer)
    requires a.Listed?
  {
    forall x, j :: x in sessions && 0 <= j < |a.conns| && x.node == a.node && x.cid == a.conns[j].cid ==>
      x.user == a.conns[j].user
  }

  ghost predicate AllNamedTruly(sessions: set<Session>, answers: seq<Answer>) {
    forall i :: 0 <= i < |answers| && answers[i].Listed? ==> NamesTruly(sessions, answers[i])
  }

  /** No connection of anyone else is ever kicked, whatever else a node lists: every kick of either
      pass of a Revoke names a connection of the worker's. */
  lemma NobodyElseIsKicked(worker: string, sessions: set<Session>, first: Pass, last: Pass, k: Kick, s: Session)
    requires k in PassKicks(worker, first) + PassKicks(worker, last)
    requires AllNamedTruly(sessions, first.answers) && AllNamedTruly(sessions, last.answers)
    requires s in sessions && s.node == k.node && s.cid == k.cid
    ensures s.user == worker
  {
    var answers := if k in PassKicks(worker, first) then first.answers else last.answers;
    var i := KickOfAnswer(worker, answers, |answers|, k);
    KicksOnlyListed(worker, answers[i].node, answers[i].conns, |answers[i].conns|, k);
    var j :| 0 <= j < |answers[i].conns| && answers[i].conns[j] == Conn(k.cid, worker);
  }

  // ---- the embedded broker ----

  // disconnectUser: the connections of the user the server has, each closed.
  method DisconnectUser(user: string, conns: seq<Conn>) returns (closed: seq<nat>)
    ensures forall c :: c in conns && c.user == user ==> c.cid in closed
    ensures forall cid :: cid in closed ==> Conn(cid, user) in conns
  {
    closed := [];
    for i := 0 to |conns|
      invariant forall j :: 0 <= j < i && conns[j].user == user ==> conns[j].cid in closed
      invariant forall cid :: cid in closed ==> Conn(cid, user) in conns
    {
      if conns[i].user == user {
        assert conns[i] == Conn(conns[i].cid, user);
        closed := closed + [conns[i].cid];
      }
    }
  }

  // Embedded.RevokeBudget, for a started broker.
  function EmbeddedBudget(authTimeout: Time): (b: Time)
    ensures b == authTimeout + 2250 * MILLISECOND
  {
    authTimeout + REVOKE_SETTLE_MARGIN + REVOKE_BUDGET_SLACK
  }

  /** Embedded.Revoke. `first` and `last` are what the broker lists in each pass, None when it
      cannot, and how long the passes took; `canceled` that the context ended during the wait. */
  method RevokeEmbedded(worker: string, began: Time, started: bool, authTimeout: Time, first: Option<seq<Conn>>,
                        firstTook: Time, canceled: bool, last: Option<seq<Conn>>, lastTook: Time)
    returns (success: bool, lastBegan: Time, ended: Time, closed: seq<nat>)
    ensures success <==> worker != "" && started && first.Some? && !canceled && last.Some?
    ensures success ==>
              && lastBegan >= began + authTimeout + REVOKE_SETTLE_MARGIN
              && forall c :: c in last.value && c.user == worker ==> c.cid in closed
    ensures forall cid :: cid in closed ==>
              (first.Some? && Conn(cid, worker) in first.value) || (last.Some? && Conn(cid, worker) in last.value)
    ensures firstTook + lastTook <= REVOKE_BUDGET_SLACK ==> ended <= began + EmbeddedBudget(authTimeout)
  {
    success, lastBegan, ended, closed := false, began, began, [];
    if worker == "" || !started {
      return;
    }
    ended := began + firstTook;
    if first.None? {
      return;
    }
    closed := DisconnectUser(worker, first.value);
    lastBegan := Max(ended, began + authTimeout + REVOKE_SETTLE_MARGIN);
    ended := lastBegan;
    if canceled {
      return;
    }
    ended := lastBegan + lastTook;
    if last.None? {
      return;
    }
    var more := DisconnectUser(worker, last.value);
    success, closed := true, closed + more;
  }

  /** Embedded.Revoke's final pass, run once the auth timeout and the margin have passed since it
      began: from its end on the broker holds no connection of the worker. */
  lemma EmbeddedRevokedWorkerIsGone(worker: string, revoked: Time, began: Time, lastBegan: Time, ended: Time,
                                    authTimeout: Time, sessions: set<Session>, conns: seq<Conn>, closed: seq<nat>,
                                    s: Session, t: Time)
    requires revoked <= began && began + authTimeout + REVOKE_SETTLE_MARGIN <= lastBegan <= ended <= t
    requires forall x :: x in sessions && OpenAt(x, lastBegan) ==> Conn(x.cid, x.user) in conns
    requires forall c :: c in conns && c.user == worker ==> c.cid in closed
    requires forall x :: x in sessions && x.cid in closed && OpenAt(x, lastBegan) ==>
             x.closed.Some? && x.closed.value <= ended
    requires s in sessions && s.user == worker && Honest(worker, revoked, authTimeout, s)
    ensures !OpenAt(s, t)
  {
    if OpenAt(s, lastBegan) {
      assert Conn(s.cid, s.user).cid in closed;
    }
  }
}

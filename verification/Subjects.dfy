/**
  A worker's NATS permissions, as the strings the server builds from its id,
  under NATS's own token and wildcard matching: when two workers' grants meet.
 */
module Subjects {

  // A subject's tokens: the strings between its dots.
  function Tokens(s: string): (ts: seq<string>)
    ensures |ts| > 0
  {
    if s == "" then [""]
    else
      var ts := Tokens(s[1..]);
      if s[0] == '.' then [""] + ts else [[s[0]] + ts[0]] + ts[1..]
  }

  /** NATS matching of a pattern's tokens with a subject's: "*" matches any one token, and a
      last ">" matches one or more. */
  predicate TokensMatch(p: seq<string>, s: seq<string>) {
    if p == [] then s == []
    else if p == [">"] then s != []
    else s != [] && (p[0] == "*" || p[0] == s[0]) && TokensMatch(p[1..], s[1..])
  }

  predicate Matches(pattern: string, subject: string) {
    TokensMatch(Tokens(pattern), Tokens(subject))
  }

  function InboxPrefix(id: string): string {
    "_INBOX_" + id
  }

  predicate ValidWorkerIDToken(id: string) {
    id != "" && forall i :: 0 <= i < |id| ==> id[i] !in ". \t\r\n*>"
  }

  function PublishAllow(id: string): seq<string> {
    ["task.status." + id + ".*",
     "task.logs." + id + ".*",
     "worker.register." + id,
     "worker.heartbeat." + id,
     "worker.deregister." + id,
     "worker.diag." + id,
     "work.lease." + id + ".*"]
  }

  function SubscribeAllow(id: string): seq<string> {
    [InboxPrefix(id) + ".>",
     "task.cancel." + id]
  }

  predicate MayPublish(id: string, subject: string) {
    exists p :: p in PublishAllow(id) && Matches(p, subject)
  }

  predicate MaySubscribe(id: string, subject: string) {
    exists p :: p in SubscribeAllow(id) && Matches(p, subject)
  }

  // Some subject is granted to both workers, or one may publish where the other listens.
  ghost predicate GrantsMeet(a: string, b: string) {
    exists s :: (MayPublish(a, s) || MaySubscribe(a, s)) && (MayPublish(b, s) || MaySubscribe(b, s))
  }

  // ---- tokens of concatenated strings ----

  // A character put before the first of a string's tokens, or a dot before all of them.
  function Before(c: char, ts: seq<string>): seq<string>
    requires ts != []
  {
    if c == '.' then [""] + ts else [[c] + ts[0]] + ts[1..]
  }

  lemma BeforeJoin(c: char, u: seq<string>, t: seq<string>)
    requires u != []
    ensures Before(c, u + t) == Before(c, u) + t
  {
    assert (u + t)[0] == u[0] && (u + t)[1..] == u[1..] + t;
  }

  lemma TokensOfRest(s: string)
    requires s != ""
    ensures Tokens(s) == Before(s[0], Tokens(s[1..]))
  {
  }

  // A dot splits the tokens.
  lemma {:induction false} TokensAtDot(s: string, n: nat)
    requires n < |s| && s[n] == '.'
    ensures Tokens(s) == Tokens(s[..n]) + Tokens(s[n + 1..])
  {
    TokensOfRest(s);
    if n == 0 {
      assert s[..0] == "";
    } else {
      TokensAtDot(s[1..], n - 1);
      assert s[1..][..n - 1] == s[..n][1..] && s[1..][n..] == s[n + 1..];
      TokensOfRest(s[..n]);
      BeforeJoin(s[0], Tokens(s[..n][1..]), Tokens(s[n + 1..]));
    }
  }

  lemma TokensOfJoin(a: string, b: string)
    ensures Tokens(a + "." + b) == Tokens(a) + Tokens(b)
  {
    var s := a + "." + b;
    assert s[..|a|] == a && s[|a| + 1..] == b;
    TokensAtDot(s, |a|);
  }

  lemma {:induction false} TokensOfWord(a: string)
    requires '.' !in a
    ensures Tokens(a) == [a]
  {
    if a != "" {
      TokensOfWord(a[1..]);
      assert [a[0]] + a[1..] == a;
    }
  }

  // The first token is the text before the first dot.
  lemma {:induction false} FirstToken(a: string)
    ensures var t := Tokens(a)[0];
            if |Tokens(a)| == 1 then a == t else |t| < |a| && a[..|t| + 1] == t + "."
  {
    if a != "" {
      FirstToken(a[1..]);
      var u := Tokens(a[1..])[0];
      if a[0] != '.' && |Tokens(a[1..])| != 1 {
        assert a[..|u| + 2] == [a[0]] + a[1..][..|u| + 1];
      }
    }
  }

  // A prefix without dots joins the first token.
  lemma {:induction false} TokensOfPrefix(x: string, a: string)
    requires '.' !in x
    ensures Tokens(x + a) == [x + Tokens(a)[0]] + Tokens(a)[1..]
  {
    if x == "" {
      assert x + a == a && x + Tokens(a)[0] == Tokens(a)[0];
    } else {
      TokensOfPrefix(x[1..], a);
      assert (x + a)[1..] == x[1..] + a;
      assert [x[0]] + (x[1..] + Tokens(a)[0]) == x + Tokens(a)[0];
    }
  }

  // ---- matching ----

  // Without a last ">", a pattern matches only subjects of its own length.
  lemma {:induction false} MatchLength(p: seq<string>, s: seq<string>)
    requires TokensMatch(p, s) && (p != [] ==> p[|p| - 1] != ">")
    ensures |p| == |s|
  {
    if p != [] {
      MatchLength(p[1..], s[1..]);
    }
  }

  // Two literal tokens in front must be the subject's.
  lemma MatchFront(k1: string, k2: string, p: seq<string>, s: seq<string>)
    requires k1 != "*" && k1 != ">" && k2 != "*" && k2 != ">" && p != []
    requires TokensMatch([k1, k2] + p, s)
    ensures |s| >= 2 && s[0] == k1 && s[1] == k2 && TokensMatch(p, s[2..])
  {
    assert ([k1, k2] + p)[1..] == [k2] + p;
    assert ([k2] + p)[1..] == p;
    assert s[1..][1..] == s[2..];
  }

  lemma FrontMatch(k1: string, k2: string, p: seq<string>, s: seq<string>)
    requires p != [] && |s| >= 2 && s[0] == k1 && s[1] == k2 && TokensMatch(p, s[2..])
    ensures TokensMatch([k1, k2] + p, s)
  {
    assert ([k1, k2] + p)[1..] == [k2] + p;
    assert ([k2] + p)[1..] == p;
    assert s[1..][1..] == s[2..];
    assert TokensMatch([k2] + p, s[1..]);
  }

  lemma {:induction false} MatchSelf(ts: seq<string>, x: string)
    ensures TokensMatch(ts + [">"], ts + [x])
  {
    if ts != [] {
      MatchSelf(ts[1..], x);
      assert (ts + [">"])[1..] == ts[1..] + [">"] && (ts + [x])[1..] == ts[1..] + [x];
    }
  }

  // ---- the shape of a grant ----

  // A grant other than the inbox: two fixed words, the id, and with `star` one more token.
  datatype Grant = Grant(k1: string, k2: string, star: bool)

  predicate Plain(g: Grant) {
    '.' !in g.k1 && '.' !in g.k2 && g.k1 !in ["*", ">"] && g.k2 !in ["*", ">"] && g.k1 != "" && g.k1[0] != '_'
  }

  function Tail(g: Grant): seq<string> {
    if g.star then ["*"] else []
  }

  function Pattern(g: Grant, id: string): string {
    if g.star then g.k1 + "." + g.k2 + "." + id + "." + "*" else g.k1 + "." + g.k2 + "." + id
  }

  const PUBLISH: seq<Grant> :=
    [Grant("task", "status", true), Grant("task", "logs", true), Grant("worker", "register", false),
     Grant("worker", "heartbeat", false), Grant("worker", "deregister", false), Grant("worker", "diag", false),
     Grant("work", "lease", true)]
  const CANCEL: Grant := Grant("task", "cancel", false)

  // The source writes a grant's two words and its suffix as one literal each.
  lemma Spelled(lit: string, g: Grant, id: string)
    requires lit == g.k1 + "." + g.k2 + "."
    ensures (if g.star then lit + id + ".*" else lit + id) == Pattern(g, id)
  {
    assert g.star ==> ".*" == "." + "*";
  }

  lemma PublishStarred(id: string)
    ensures PublishAllow(id)[0] == Pattern(PUBLISH[0], id)
    ensures PublishAllow(id)[1] == Pattern(PUBLISH[1], id)
    ensures PublishAllow(id)[6] == Pattern(PUBLISH[6], id)
  {
    Spelled("task.status.", PUBLISH[0], id);
    Spelled("task.logs.", PUBLISH[1], id);
    Spelled("work.lease.", PUBLISH[6], id);
  }

  lemma PublishUnstarred(id: string)
    ensures PublishAllow(id)[2] == Pattern(PUBLISH[2], id)
    ensures PublishAllow(id)[3] == Pattern(PUBLISH[3], id)
    ensures PublishAllow(id)[4] == Pattern(PUBLISH[4], id)
    ensures PublishAllow(id)[5] == Pattern(PUBLISH[5], id)
  {
    Spelled("worker.register.", PUBLISH[2], id);
    Spelled("worker.heartbeat.", PUBLISH[3], id);
    Spelled("worker.deregister.", PUBLISH[4], id);
    Spelled("worker.diag.", PUBLISH[5], id);
  }

  lemma PublishShape(id: string, i: nat)
    requires i < |PUBLISH|
    ensures |PublishAllow(id)| == |PUBLISH| && PublishAllow(id)[i] == Pattern(PUBLISH[i], id)
  {
    PublishStarred(id);
    PublishUnstarred(id);
  }

  lemma GrantsArePlain(i: nat)
    requires i < |PUBLISH|
    ensures Plain(PUBLISH[i]) && Plain(CANCEL)
  {
  }

  lemma GrantTokens(g: Grant, id: string)
    requires Plain(g)
    ensures Tokens(Pattern(g, id)) == [g.k1, g.k2] + Tokens(id) + Tail(g)
  {
    TokensOfWord(g.k1);
    TokensOfWord(g.k2);
    TokensOfJoin(g.k1, g.k2);
    TokensOfJoin(g.k1 + "." + g.k2, id);
    if g.star {
      TokensOfWord("*");
      TokensOfJoin(g.k1 + "." + g.k2 + "." + id, "*");
    }
  }

  lemma InboxTokens(id: string)
    ensures Tokens(InboxPrefix(id) + ".>") == ["_INBOX_" + Tokens(id)[0]] + Tokens(id)[1..] + [">"]
  {
    assert InboxPrefix(id) + ".>" == InboxPrefix(id) + "." + ">";
    TokensOfJoin(InboxPrefix(id), ">");
    TokensOfPrefix("_INBOX_", id);
    TokensOfWord(">");
  }

  // What a worker may touch: its inbox, or one of its plain grants.
  ghost predicate Grants(g: Grant, id: string, s: string) {
    Plain(g) && Matches(Pattern(g, id), s)
  }

  lemma GrantedSubject(id: string, s: string) returns (inbox: bool, g: Grant)
    requires MayPublish(id, s) || MaySubscribe(id, s)
    ensures if inbox then Matches(InboxPrefix(id) + ".>", s) else Grants(g, id, s)
    ensures g in PUBLISH || g == CANCEL
  {
    g := CANCEL;
    if MayPublish(id, s) {
      var p :| p in PublishAllow(id) && Matches(p, s);
      var i :| 0 <= i < |PublishAllow(id)| && PublishAllow(id)[i] == p;
      PublishShape(id, i);
      GrantsArePlain(i);
      inbox, g := false, PUBLISH[i];
    } else {
      Spelled("task.cancel.", CANCEL, id);
      GrantsArePlain(0);
      inbox := Matches(InboxPrefix(id) + ".>", s);
    }
  }

  // ---- when grants meet ----

  // An id whose patterns reach into those of the valid id b.
  predicate Reaches(a: string, b: string) {
    a == "*" || a == ">" || (|b| < |a| && a[..|b| + 1] == b + ".")
  }

  lemma ValidIsWord(b: string)
    requires ValidWorkerIDToken(b)
    ensures Tokens(b) == [b] && b != "*" && b != ">"
  {
    TokensOfWord(b);
  }

  lemma PlainGrantsMeet(g: Grant, h: Grant, a: string, b: string, s: string)
    requires ValidWorkerIDToken(b) && a != b && Grants(g, a, s) && Grants(h, b, s)
    requires g.k1 == h.k1 && g.k2 == h.k2 ==> g == h
    ensures a == "*" || a == ">"
  {
    ValidIsWord(b);
    GrantRest(g, a, s);
    GrantRest(h, b, s);
    OneTokenMeets(g, Tokens(a), b, Tokens(s)[2..]);
    FirstToken(a);
  }

  // A granted subject begins with the grant's words, and its other tokens match the rest.
  lemma GrantRest(g: Grant, id: string, s: string)
    requires Grants(g, id, s)
    ensures |Tokens(s)| >= 2 && Tokens(s)[0] == g.k1 && Tokens(s)[1] == g.k2
    ensures TokensMatch(Tokens(id) + Tail(g), Tokens(s)[2..])
  {
    GrantTokens(g, id);
    assert [g.k1, g.k2] + Tokens(id) + Tail(g) == [g.k1, g.k2] + (Tokens(id) + Tail(g));
    MatchFront(g.k1, g.k2, Tokens(id) + Tail(g), Tokens(s));
  }

  // What is left of both patterns after their fixed words, matching the same tokens.
  lemma OneTokenMeets(g: Grant, ta: seq<string>, b: string, s2: seq<string>)
    requires ta != [] && b != "*" && b != ">" && TokensMatch(ta + Tail(g), s2) && TokensMatch([b] + Tail(g), s2)
    ensures ta == [b] || ta == ["*"] || ta == [">"]
  {
    assert ([b] + Tail(g))[0] == b && ([b] + Tail(g))[1..] == Tail(g);
    assert (ta + Tail(g))[0] == ta[0] && (ta + Tail(g))[1..] == ta[1..] + Tail(g);
    MatchLength([b] + Tail(g), s2);
    assert s2[0] == b && |s2| == 1 + |Tail(g)|;
    if g.star {
      StarLast(ta, s2);
    } else {
      assert ta + Tail(g) == ta;
      assert s2[1..] == [];
    }
  }

  lemma StarLast(ta: seq<string>, s2: seq<string>)
    requires ta != [] && TokensMatch(ta + ["*"], s2) && |s2| == 2
    ensures |ta| == 1 && (ta[0] == s2[0] || ta[0] == "*")
  {
    assert (ta + ["*"])[0] == ta[0];
    MatchLength(ta + ["*"], s2);
  }

  lemma InboxesMeet(a: string, b: string, s: string)
    requires ValidWorkerIDToken(b) && a != b && Matches(InboxPrefix(a) + ".>", s) && Matches(InboxPrefix(b) + ".>", s)
    ensures Reaches(a, b)
  {
    ValidIsWord(b);
    InboxTokens(a);
    InboxTokens(b);
    var x, y := "_INBOX_" + Tokens(a)[0], "_INBOX_" + b;
    assert x[0] == '_' && y[0] == '_';
    assert Tokens(s)[0] == x && Tokens(s)[0] == y;
    assert x[7..] == Tokens(a)[0] && y[7..] == b;
    FirstToken(a);
  }

  // An inbox and a plain grant start with different tokens.
  lemma InboxApart(id: string, g: Grant, other: string, s: string)
    requires Grants(g, other, s)
    ensures !Matches(InboxPrefix(id) + ".>", s)
  {
    InboxTokens(id);
    GrantTokens(g, other);
    var x, p := "_INBOX_" + Tokens(id)[0], Tokens(other) + Tail(g);
    assert [g.k1, g.k2] + Tokens(other) + Tail(g) == [g.k1, g.k2] + p;
    MatchFront(g.k1, g.k2, p, Tokens(s));
    assert x[0] == '_';
  }

  // Grants with the same two words are the same grant.
  lemma GrantOfWords(g: Grant, h: Grant)
    requires (g in PUBLISH || g == CANCEL) && (h in PUBLISH || h == CANCEL)
    requires g.k1 == h.k1 && g.k2 == h.k2
    ensures g == h
  {
    WordLengths(g);
    WordLengths(h);
  }

  lemma WordLengths(g: Grant)
    requires g in PUBLISH || g == CANCEL
    ensures g.star <==> |g.k1| == 4 && (|g.k2| < 6 || g.k2[0] == 's')
  {
  }

  /** Two workers' grants meet exactly when one's id reaches into the other's: it is a whole
      wildcard, or the other's id followed by a dot. */
  lemma GrantsMeetIff(a: string, b: string)
    requires ValidWorkerIDToken(b) && a != b
    ensures GrantsMeet(a, b) <==> Reaches(a, b)
  {
    if GrantsMeet(a, b) {
      var s :| (MayPublish(a, s) || MaySubscribe(a, s)) && (MayPublish(b, s) || MaySubscribe(b, s));
      var aInbox, g := GrantedSubject(a, s);
      var bInbox, h := GrantedSubject(b, s);
      if aInbox && bInbox {
        InboxesMeet(a, b, s);
      } else if aInbox {
        InboxApart(a, h, b, s);
      } else if bInbox {
        InboxApart(b, g, a, s);
      } else {
        if g.k1 == h.k1 && g.k2 == h.k2 {
          GrantOfWords(g, h);
        }
        PlainGrantsMeet(g, h, a, b, s);
      }
    }
    if Reaches(a, b) {
      ReachingGrantsMeet(a, b);
    }
  }

  lemma ReachingGrantsMeet(a: string, b: string)
    requires ValidWorkerIDToken(b) && Reaches(a, b)
    ensures GrantsMeet(a, b)
  {
    if a == "*" || a == ">" {
      WildcardMeets(a, b);
    } else {
      DottedMeets(a, b);
    }
  }

  lemma WildcardMeets(a: string, b: string)
    requires ValidWorkerIDToken(b) && (a == "*" || a == ">")
    ensures GrantsMeet(a, b)
  {
    ValidIsWord(b);
    PublishShape(a, 2);
    PublishShape(b, 2);
    GrantsArePlain(2);
    GrantTokens(PUBLISH[2], a);
    GrantTokens(PUBLISH[2], b);
    TokensOfWord(a);
    var s, p := PublishAllow(b)[2], PublishAllow(a)[2];
    assert Tokens(s) == ["worker", "register", b] && Tokens(p) == ["worker", "register", a];
    assert TokensMatch([a], [b]) && TokensMatch([b], [b]);
    assert ["register", a][1..] == [a] && ["register", b][1..] == [b];
    assert TokensMatch(["register", a], ["register", b]) && TokensMatch(["register", b], ["register", b]);
    assert Tokens(p)[1..] == ["register", a] && Tokens(s)[1..] == ["register", b];
    assert Matches(p, s) && Matches(s, s);
    assert MayPublish(a, s) && MayPublish(b, s);
  }

  // When nothing follows the dot, the shared subject has an empty token, which nats-server refuses.
  lemma DottedMeets(a: string, b: string)
    requires ValidWorkerIDToken(b) && |b| < |a| && a[..|b| + 1] == b + "."
    ensures GrantsMeet(a, b)
  {
    ValidIsWord(b);
    var s := InboxPrefix(a) + "." + "x";
    InboxTokens(a);
    InboxTokens(b);
    TokensOfJoin(InboxPrefix(a), "x");
    TokensOfPrefix("_INBOX_", a);
    TokensOfWord("x");
    assert a[..|b|] == b && a[|b|] == '.';
    TokensAtDot(a, |b|);
    MatchSelf(Tokens(InboxPrefix(a)), "x");
    assert Tokens(InboxPrefix(b) + ".>") == ["_INBOX_" + b, ">"];
    assert Tokens(s)[0] == "_INBOX_" + b && |Tokens(s)| > 1;
    assert ["_INBOX_" + b, ">"][1..] == [">"];
    assert Matches(SubscribeAllow(a)[0], s) && Matches(SubscribeAllow(b)[0], s);
    assert MaySubscribe(a, s) && MaySubscribe(b, s);
  }

  /** Worker isolation: no subject is granted to two workers with distinct valid ids, and neither
      may publish into the other's inboxes or cancel subject. */
  lemma WorkersIsolated(a: string, b: string)
    requires ValidWorkerIDToken(a) && ValidWorkerIDToken(b) && a != b
    ensures !GrantsMeet(a, b)
  {
    GrantsMeetIff(a, b);
    ValidIsWord(a);
    if |b| < |a| {
      assert a[|b|] != '.' && a[..|b| + 1][|b|] == a[|b|];
      assert (b + ".")[|b|] == '.';
    }
  }

  // ---- what a worker may publish and subscribe to ----

  // The subjects a worker publishes on, by their tokens.
  predicate PublishFamily(id: string, ts: seq<string>) {
    || (|ts| == 4 && ts[0] == "task" && ts[1] in {"status", "logs"} && ts[2] == id)
    || (|ts| == 4 && ts[0] == "work" && ts[1] == "lease" && ts[2] == id)
    || (|ts| == 3 && ts[0] == "worker" && ts[1] in {"register", "heartbeat", "deregister", "diag"} && ts[2] == id)
  }

  // The subjects it listens on: its cancel subject, and everything in its inbox.
  predicate SubscribeFamily(id: string, ts: seq<string>) {
    || ts == ["task", "cancel", id]
    || (|ts| >= 2 && ts[0] == "_INBOX_" + id)
  }

  lemma RestMatchIff(g: Grant, id: string, rest: seq<string>)
    requires id != "*" && id != ">"
    ensures TokensMatch([id] + Tail(g), rest) <==> |rest| == 1 + |Tail(g)| && rest[0] == id
  {
    assert ([id] + Tail(g))[0] == id && ([id] + Tail(g))[1..] == Tail(g);
    if rest != [] && g.star {
      assert Tail(g)[1..] == [];
      assert TokensMatch(["*"], rest[1..]) <==> |rest[1..]| == 1;
    }
  }

  // A grant of a valid id matches the subjects with its words, the id, and any one token for a star.
  lemma GrantIff(g: Grant, id: string, s: string)
    requires Plain(g) && ValidWorkerIDToken(id)
    ensures var ts := Tokens(s);
            Matches(Pattern(g, id), s) <==>
            |ts| == 3 + |Tail(g)| && ts[0] == g.k1 && ts[1] == g.k2 && ts[2] == id
  {
    ValidIsWord(id);
    GrantTokens(g, id);
    var ts, p := Tokens(s), [id] + Tail(g);
    assert [g.k1, g.k2] + [id] + Tail(g) == [g.k1, g.k2] + p;
    if Matches(Pattern(g, id), s) {
      MatchFront(g.k1, g.k2, p, ts);
    }
    if |ts| >= 2 {
      RestMatchIff(g, id, ts[2..]);
      if ts[0] == g.k1 && ts[1] == g.k2 && TokensMatch(p, ts[2..]) {
        FrontMatch(g.k1, g.k2, p, ts);
      }
    }
  }

  lemma FamilyOfGrants(id: string, ts: seq<string>)
    ensures PublishFamily(id, ts) <==>
            exists i :: 0 <= i < |PUBLISH| && |ts| == 3 + |Tail(PUBLISH[i])| && ts[0] == PUBLISH[i].k1
                        && ts[1] == PUBLISH[i].k2 && ts[2] == id
  {
    if PublishFamily(id, ts) {
      var i := if ts[1] == "status" then 0 else if ts[1] == "logs" then 1 else if ts[1] == "register" then 2
               else if ts[1] == "heartbeat" then 3 else if ts[1] == "deregister" then 4
               else if ts[1] == "diag" then 5 else 6;
      assert ts[0] == PUBLISH[i].k1 && ts[1] == PUBLISH[i].k2;
    }
  }

  /** A worker with a valid id may publish on exactly these: its task status and log subjects and its work
      lease, each with one more token, and its four worker subjects. */
  lemma MayPublishIff(id: string, s: string)
    requires ValidWorkerIDToken(id)
    ensures MayPublish(id, s) <==> PublishFamily(id, Tokens(s))
  {
    FamilyOfGrants(id, Tokens(s));
    forall i | 0 <= i < |PUBLISH|
      ensures |PublishAllow(id)| == |PUBLISH|
      ensures Matches(PublishAllow(id)[i], s) <==>
              |Tokens(s)| == 3 + |Tail(PUBLISH[i])| && Tokens(s)[0] == PUBLISH[i].k1
              && Tokens(s)[1] == PUBLISH[i].k2 && Tokens(s)[2] == id
    {
      PublishShape(id, i);
      GrantsArePlain(i);
      GrantIff(PUBLISH[i], id, s);
    }
  }

  /** And it may subscribe to exactly its cancel subject and its inbox. */
  lemma MaySubscribeIff(id: string, s: string)
    requires ValidWorkerIDToken(id)
    ensures MaySubscribe(id, s) <==> SubscribeFamily(id, Tokens(s))
  {
    ValidIsWord(id);
    Spelled("task.cancel.", CANCEL, id);
    GrantsArePlain(0);
    GrantIff(CANCEL, id, s);
    InboxTokens(id);
    var ts, x := Tokens(s), "_INBOX_" + id;
    assert ["_INBOX_" + id] + [] + [">"] == [x, ">"];
    assert x[0] == '_' && [x, ">"][1..] == [">"];
    assert TokensMatch([x, ">"], ts) <==> |ts| >= 2 && ts[0] == x;
    assert SubscribeAllow(id)[0] in SubscribeAllow(id) && SubscribeAllow(id)[1] in SubscribeAllow(id);
  }
}

/**
  Reading a configuration file as nats-server does for the parts sqi prints,
  and the proof that the printed layout reads back as the one Apply sets.
 */
module LayoutReadBack {
  import opened Common
  import opened ConfigText
  import opened Layout

  function KeyOf(e: Entry): string {
    if IsText(e.key) then e.key.s else ""
  }

  // The value of a key in a map; of duplicates, the parser keeps the last.
  function Get(es: seq<Entry>, key: string): Option<Doc> {
    if es == [] then None
    else if KeyOf(es[|es| - 1]) == key then Some(es[|es| - 1].value)
    else Get(es[..|es| - 1], key)
  }

  function Sub(d: Option<Doc>, key: string): Option<Doc> {
    if d.Some? && d.value.Map? then Get(d.value.entries, key) else None
  }

  predicate IsString(d: Doc) {
    d.Leaf? && d.tok.Str?
  }

  function StringOf(d: Option<Doc>): Option<string> {
    if d.Some? && IsString(d.value) then Some(d.value.tok.s) else None
  }

  function StringsOf(d: Option<Doc>): Option<seq<string>> {
    if d.Some? && d.value.List? && forall i :: 0 <= i < |d.value.items| ==> IsString(d.value.items[i]) then
      var ds := d.value.items;
      Some(seq(|ds|, i requires 0 <= i < |ds| && IsString(ds[i]) => ds[i].tok.s))
    else None
  }

  function GrantsOf(d: Option<Doc>): Option<Grants> {
    var p, q := StringsOf(Sub(Sub(d, "publish"), "allow")), StringsOf(Sub(Sub(d, "subscribe"), "allow"));
    if p.Some? && q.Some? then Some(Grants(p.value, q.value)) else None
  }

  // The users of one account, added to those read before.
  function UsersOf(account: string, ds: seq<Doc>, sofar: map<string, User>): Option<map<string, User>> {
    if ds == [] then Some(sofar)
    else
      var nkey := StringOf(Sub(Some(ds[0]), "nkey"));
      var perms := Sub(Some(ds[0]), "permissions");
      var grants := GrantsOf(perms);
      if nkey.None? || (perms.Some? && grants.None?) then None
      else UsersOf(account, ds[1..], sofar[nkey.value := User(account, grants)])
  }

  function AccountsOf(es: seq<Entry>, sofar: map<string, User>): Option<map<string, User>> {
    if es == [] then Some(sofar)
    else
      var users := Sub(Some(es[0].value), "users");
      var more :=
        if users.Some? && users.value.List? then UsersOf(KeyOf(es[0]), users.value.items, sofar)
        else Some(sofar);
      if more.None? then None else AccountsOf(es[1..], more.value)
  }

  function CalloutOf(d: Option<Doc>): Option<Callout> {
    var issuer, account, users :=
      StringOf(Sub(d, "issuer")), StringOf(Sub(d, "account")), StringsOf(Sub(d, "auth_users"));
    if issuer.Some? && account.Some? && users.Some? then Some(Callout(issuer.value, account.value, users.value))
    else None
  }

  // The accounts, users, callout and no-auth user of a file, and its system account.
  function ConfigOf(es: seq<Entry>): Option<(Config, Option<string>)> {
    var accounts := Get(es, "accounts");
    if accounts.None? || !accounts.value.Map? then None
    else
      var accs := accounts.value.entries;
      var users := AccountsOf(accs, map[]);
      if users.None? then None
      else Some((Config(set i | 0 <= i < |accs| :: KeyOf(accs[i]), users.value,
                        CalloutOf(Sub(Get(es, "authorization"), "auth_callout")), StringOf(Get(es, "no_auth_user"))),
                 StringOf(Get(es, "system_account"))))
  }

  function ReadFile(text: string): Option<seq<Entry>> {
    match Lex(Ground, text)
    case None => None
    case Some(ts) => ParseFile(ts)
  }

  // No map of the document has a key twice.
  predicate UniqueKeys(es: seq<Entry>)
    decreases es, 0
  {
    && (forall i, j :: 0 <= i < j < |es| ==> KeyOf(es[i]) != KeyOf(es[j]))
    && forall i :: 0 <= i < |es| ==> UniqueIn(es[i])
  }

  predicate UniqueIn(e: Entry)
    decreases e, 1
  {
    DocUnique(e.value)
  }

  predicate DocUnique(d: Doc)
    decreases d, 1
  {
    match d
    case Leaf(_) => true
    case Map(es) => UniqueKeys(es)
    case List(ds) => forall i :: 0 <= i < |ds| ==> DocUnique(ds[i])
  }

  // ---- looking keys up in the printed maps ----

  lemma GetLast(es: seq<Entry>, e: Entry)
    ensures Get(es + [e], KeyOf(e)) == Some(e.value)
    ensures forall k :: k != KeyOf(e) ==> Get(es + [e], k) == Get(es, k)
  {
    assert (es + [e])[..|es|] == es;
  }

  lemma GetIn1(a: Entry)
    ensures Get([a], KeyOf(a)) == Some(a.value) && forall k :: k != KeyOf(a) ==> Get([a], k) == None
  {
    GetLast([], a);
    assert [] + [a] == [a];
  }

  lemma GetIn2(a: Entry, b: Entry)
    requires KeyOf(a) != KeyOf(b)
    ensures Get([a, b], KeyOf(a)) == Some(a.value) && Get([a, b], KeyOf(b)) == Some(b.value)
    ensures forall k :: k != KeyOf(a) && k != KeyOf(b) ==> Get([a, b], k) == None
  {
    GetIn1(a);
    GetLast([a], b);
    assert [a] + [b] == [a, b];
  }

  lemma GetIn3(a: Entry, b: Entry, c: Entry)
    requires KeyOf(a) != KeyOf(b) && KeyOf(a) != KeyOf(c) && KeyOf(b) != KeyOf(c)
    ensures Get([a, b, c], KeyOf(a)) == Some(a.value) && Get([a, b, c], KeyOf(b)) == Some(b.value)
    ensures Get([a, b, c], KeyOf(c)) == Some(c.value)
    ensures forall k :: k != KeyOf(a) && k != KeyOf(b) && k != KeyOf(c) ==> Get([a, b, c], k) == None
  {
    GetIn2(a, b);
    GetLast([a, b], c);
    assert [a, b] + [c] == [a, b, c];
  }

  // ---- the printed layout ----

  lemma AllowReads(key: string)
    ensures StringsOf(Sub(Some(AllowDoc(key).value), "allow")) == Some([">"])
  {
    GetIn1(Entry(Word("allow"), true, List([Leaf(Str(">"))])));
    var r := StringsOf(Sub(Some(AllowDoc(key).value), "allow"));
    assert r.Some? && r.value == [">"];
  }

  lemma DataUserReads(l: Layout)
    ensures UsersOf(l.account, [DataUserDoc(l)], map[]) ==
            Some(map[l.dataUserPub := User(l.account, Some(SERVER_GRANTS))])
  {
    var p, q := AllowDoc("publish"), AllowDoc("subscribe");
    var nkey, perms := Leaves("nkey", Str(l.dataUserPub)), Entry(Word("permissions"), true, Map([p, q]));
    assert "publish" != "subscribe" && "nkey" != "permissions";
    GetIn2(p, q);
    GetIn2(nkey, perms);
    AllowReads("publish");
    AllowReads("subscribe");
    assert GrantsOf(Some(perms.value)) == Some(SERVER_GRANTS);
    assert [DataUserDoc(l)][1..] == [];
  }

  lemma AccountReads(name: string, key: string, rest: seq<Entry>, sofar: map<string, User>)
    ensures AccountsOf([AccountDoc(name, key)] + rest, sofar) ==
            AccountsOf(rest, if key == "" then sofar else sofar[key := User(name, None)])
  {
    var e := AccountDoc(name, key);
    assert ([e] + rest)[0] == e && ([e] + rest)[1..] == rest;
    if key != "" {
      var d := Map([Leaves("nkey", Str(key))]);
      GetIn1(Entry(Word("users"), true, List([d])));
      GetIn1(Leaves("nkey", Str(key)));
      assert "permissions" != "nkey";
      assert [d][1..] == [];
      assert UsersOf(name, [d], sofar) == Some(sofar[key := User(name, None)]);
    }
  }

  lemma DataAccountReads(l: Layout, rest: seq<Entry>)
    ensures AccountsOf([DataAccountDoc(l)] + rest, map[]) ==
            AccountsOf(rest, map[l.dataUserPub := User(l.account, Some(SERVER_GRANTS))])
  {
    var e := DataAccountDoc(l);
    assert ([e] + rest)[0] == e && ([e] + rest)[1..] == rest;
    assert "jetstream" != "users";
    GetIn2(JetStreamDoc(l), Entry(Word("users"), true, List([DataUserDoc(l)])));
    DataUserReads(l);
  }

  lemma AccountsRead(l: Layout, sys: string)
    requires Valid(l)
    ensures AccountsOf(AccountsDoc(l, sys).value.entries, map[]) == Some(WithSystem(Intended(l), sys).users)
  {
    var a, b, c := DataAccountDoc(l), AccountDoc(ACCOUNT_AUTH, CalloutKey(l)), AccountDoc(ACCOUNT_SYSTEM, sys);
    var data := map[l.dataUserPub := User(l.account, Some(SERVER_GRANTS))];
    assert [a] + [b, c] == [a, b, c] && [b] + [c] == [b, c] && [c] + [] == [c];
    DataAccountReads(l, [b, c]);
    AccountReads(ACCOUNT_AUTH, CalloutKey(l), [c], data);
    AccountReads(ACCOUNT_SYSTEM, sys, [], Intended(l).users);
  }

  lemma {:induction false} QuotedAt(items: seq<string>)
    ensures |Quoted(items)| == |items| && forall i :: 0 <= i < |items| ==> Quoted(items)[i] == Leaf(Str(items[i]))
  {
    if items != [] {
      QuotedAt(items[1..]);
      forall i | 0 < i < |items| ensures Quoted(items)[i] == Leaf(Str(items[i])) {
        assert items[i] == items[1..][i - 1];
      }
    }
  }

  lemma QuotedReads(items: seq<string>)
    ensures StringsOf(Some(List(Quoted(items)))) == Some(items)
  {
    QuotedAt(items);
    var r := StringsOf(Some(List(Quoted(items))));
    assert r.Some? && r.value == items;
  }

  lemma CalloutReads(l: Layout, sys: string)
    ensures CalloutOf(Some(CalloutDoc(l, sys))) == Some(Callout(l.issuerPub, ACCOUNT_AUTH, AuthUsers(l, sys)))
  {
    var a, b := Leaves("issuer", Str(l.issuerPub)), Leaves("account", Str(ACCOUNT_AUTH));
    assert |"issuer"| == 6 && |"account"| == 7 && |"auth_users"| == 10;
    GetIn3(a, b, AuthUsersDoc(l, sys));
    QuotedReads(AuthUsers(l, sys));
  }

  lemma TopKeys(l: Layout, sys: string)
    ensures var es := FragmentDoc(l, sys);
            && Get(es, "accounts") == Some(AccountsDoc(l, sys).value)
            && Get(es, "system_account") == Some(Leaf(Str(ACCOUNT_SYSTEM)))
            && Get(es, "authorization") == (if l.authEnabled then Some(AuthorizationDoc(l, sys).value) else None)
            && Get(es, "no_auth_user") == (if l.authEnabled then None else Some(Leaf(Str(l.dataUserPub))))
  {
    assert |"accounts"| == 8 && |"system_account"| == 14 && |"authorization"| == 13 && |"no_auth_user"| == 12;
    GetIn3(AccountsDoc(l, sys), Leaves("system_account", Str(ACCOUNT_SYSTEM)), AuthorizationDoc(l, sys));
  }

  lemma AuthorizationReads(l: Layout, sys: string)
    ensures CalloutOf(Sub(Get(FragmentDoc(l, sys), "authorization"), "auth_callout")) ==
            WithSystem(Intended(l), sys).callout
  {
    TopKeys(l, sys);
    if l.authEnabled {
      GetIn1(Entry(Word("auth_callout"), false, CalloutDoc(l, sys)));
      CalloutReads(l, sys);
      assert sys == "" ==> AuthUsers(l, sys) == [l.dataUserPub, l.calloutUserPub];
    }
  }

  lemma DocReads(l: Layout, sys: string)
    requires Valid(l)
    ensures ConfigOf(FragmentDoc(l, sys)) == Some((WithSystem(Intended(l), sys), Some(ACCOUNT_SYSTEM)))
  {
    TopKeys(l, sys);
    AccountsRead(l, sys);
    AuthorizationReads(l, sys);
    NamesRead(l, sys);
  }

  lemma NamesRead(l: Layout, sys: string)
    ensures var accs := AccountsDoc(l, sys).value.entries;
            (set i | 0 <= i < |accs| :: KeyOf(accs[i])) == WithSystem(Intended(l), sys).accounts
  {
    var accs := AccountsDoc(l, sys).value.entries;
    AccountNames(accs);
    assert KeyOf(accs[0]) == l.account && KeyOf(accs[1]) == ACCOUNT_AUTH && KeyOf(accs[2]) == ACCOUNT_SYSTEM;
  }

  lemma AccountNames(accs: seq<Entry>)
    requires |accs| == 3
    ensures (set i | 0 <= i < |accs| :: KeyOf(accs[i])) == {KeyOf(accs[0]), KeyOf(accs[1]), KeyOf(accs[2])}
  {
    var names := set i | 0 <= i < |accs| :: KeyOf(accs[i]);
    assert KeyOf(accs[0]) in names && KeyOf(accs[1]) in names && KeyOf(accs[2]) in names;
  }

  lemma CommentLexes(text: string, rest: string)
    requires '\n' !in text
    ensures Lex(Ground, Comment(text, rest)) == Lex(Ground, rest)
  {
    assert Comment(text, rest)[0] == '#' && Comment(text, rest)[1..] == text + ("\n" + rest);
    CommentSkipped(text, rest);
  }

  // Checking a document whose parts are checked.
  lemma Entries1(a: Entry)
    requires EntryOk(a) && UniqueIn(a)
    ensures EntriesOk([a]) && UniqueKeys([a])
  {
    assert [a][1..] == [];
  }

  lemma Entries2(a: Entry, b: Entry)
    requires EntryOk(a) && UniqueIn(a) && EntryOk(b) && UniqueIn(b) && KeyOf(a) != KeyOf(b)
    ensures EntriesOk([a, b]) && UniqueKeys([a, b])
  {
    assert [a, b][1..] == [b];
    Entries1(b);
  }

  lemma Entries3(a: Entry, b: Entry, c: Entry)
    requires EntryOk(a) && UniqueIn(a) && EntryOk(b) && UniqueIn(b) && EntryOk(c) && UniqueIn(c)
    requires KeyOf(a) != KeyOf(b) && KeyOf(a) != KeyOf(c) && KeyOf(b) != KeyOf(c)
    ensures EntriesOk([a, b, c]) && UniqueKeys([a, b, c])
  {
    assert [a, b, c][1..] == [b, c];
    Entries2(b, c);
  }

  lemma Items1(d: Doc)
    requires DocOk(d) && DocUnique(d)
    ensures DocOk(List([d])) && DocUnique(List([d]))
  {
    assert [d][1..] == [];
  }

  lemma {:induction false} QuotedChecked(items: seq<string>)
    ensures ItemsOk(Quoted(items)) && DocUnique(List(Quoted(items)))
  {
    QuotedAt(items);
    if items != [] {
      QuotedChecked(items[1..]);
      assert Quoted(items)[1..] == Quoted(items[1..]);
    }
  }

  lemma AllowChecked(key: string)
    ensures EntryOk(AllowDoc(key)) && UniqueIn(AllowDoc(key))
  {
    Items1(Leaf(Str(">")));
    Entries1(Entry(Word("allow"), true, List([Leaf(Str(">"))])));
  }

  lemma DataAccountChecked(l: Layout)
    ensures EntryOk(DataAccountDoc(l)) && UniqueIn(DataAccountDoc(l))
  {
    var p, q := AllowDoc("publish"), AllowDoc("subscribe");
    var nkey, perms := Leaves("nkey", Str(l.dataUserPub)), Entry(Word("permissions"), true, Map([p, q]));
    assert |"publish"| == 7 && |"subscribe"| == 9 && |"nkey"| == 4 && |"permissions"| == 11;
    assert |"jetstream"| == 9 && |"users"| == 5;
    AllowChecked("publish");
    AllowChecked("subscribe");
    Entries2(p, q);
    Entries2(nkey, perms);
    Items1(DataUserDoc(l));
    if l.maxStore > 0 {
      Entries1(Leaves("max_store", Word(Digits(l.maxStore))));
    }
    Entries2(JetStreamDoc(l), Entry(Word("users"), true, List([DataUserDoc(l)])));
  }

  lemma AccountChecked(name: string, key: string)
    ensures EntryOk(AccountDoc(name, key)) && UniqueIn(AccountDoc(name, key))
  {
    if key != "" {
      var nkey := Leaves("nkey", Str(key));
      Entries1(nkey);
      Items1(Map([nkey]));
      Entries1(Entry(Word("users"), true, List([Map([nkey])])));
    }
  }

  lemma AuthorizationChecked(l: Layout, sys: string)
    ensures EntryOk(AuthorizationDoc(l, sys)) && UniqueIn(AuthorizationDoc(l, sys))
  {
    if l.authEnabled {
      var a, b := Leaves("issuer", Str(l.issuerPub)), Leaves("account", Str(ACCOUNT_AUTH));
      assert |"issuer"| == 6 && |"account"| == 7 && |"auth_users"| == 10;
      QuotedChecked(AuthUsers(l, sys));
      Entries3(a, b, AuthUsersDoc(l, sys));
      Entries1(Entry(Word("auth_callout"), false, CalloutDoc(l, sys)));
    }
  }

  lemma DocChecked(l: Layout, sys: string)
    requires Valid(l)
    ensures EntriesOk(FragmentDoc(l, sys)) && UniqueKeys(FragmentDoc(l, sys))
  {
    DataAccountChecked(l);
    AccountChecked(ACCOUNT_AUTH, CalloutKey(l));
    AccountChecked(ACCOUNT_SYSTEM, sys);
    AuthorizationChecked(l, sys);
    assert |ACCOUNT_AUTH| == 4 && |ACCOUNT_SYSTEM| == 3;
    Entries3(DataAccountDoc(l), AccountDoc(ACCOUNT_AUTH, CalloutKey(l)), AccountDoc(ACCOUNT_SYSTEM, sys));
    assert |"accounts"| == 8 && |"system_account"| == 14 && |"authorization"| == 13 && |"no_auth_user"| == 12;
    Entries3(AccountsDoc(l, sys), Leaves("system_account", Str(ACCOUNT_SYSTEM)), AuthorizationDoc(l, sys));
  }

  /** Two renderings, one layout: text is printed for exactly the valid layouts and system users; it
      is readable; and what is read has exactly the accounts, users, grants, callout and no-auth user
      that Apply sets, besides the system account and its user, with no key given twice. */
  lemma FragmentMeansApply(l: Layout, sys: string, title: string, warning: string)
    requires '\n' !in title && '\n' !in warning
    ensures ConfigFragment(l, sys, title, warning).Some? <==> Valid(l) && ValidSystemUser(l, sys)
    ensures ConfigFragment(l, sys, title, warning).Some? ==>
              && ReadFile(ConfigFragment(l, sys, title, warning).value) == Some(FragmentDoc(l, sys))
              && ConfigOf(FragmentDoc(l, sys)) == Some((WithSystem(Intended(l), sys), Some(ACCOUNT_SYSTEM)))
              && UniqueKeys(FragmentDoc(l, sys))
  {
    if Valid(l) && ValidSystemUser(l, sys) {
      var text := Text(Fragment(l, sys));
      CommentLexes(title, if l.authEnabled then Comment(warning, text) else text);
      CommentLexes(warning, text);
      FragmentPrintable(l, sys);
      FragmentToks(l, sys);
      DocChecked(l, sys);
      TextReadsBack(Fragment(l, sys), FragmentDoc(l, sys));
      DocReads(l, sys);
    }
  }
}

/**
  sqi's NATS account layout, rendered twice: as server options for the
  embedded broker, and as configuration text for an external cluster. Reading the
  text back gives the options.
 */
module Layout {
  import opened Common
  import opened ConfigText

  const ACCOUNT_AUTH := "AUTH"
  const ACCOUNT_SYSTEM := "SYS"
  const ACCOUNT_GLOBAL := "$G"

  datatype Layout = Layout(account: string, authEnabled: bool, issuerPub: string, dataUserPub: string,
                           calloutUserPub: string, maxStore: int)

  predicate IsAccountChar(c: char) {
    'A' <= c <= 'Z' || 'a' <= c <= 'z' || '0' <= c <= '9' || c == '_' || c == '-'
  }

  // A public nkey by its shape: a prefix letter and base32. Its checksum is not modelled.
  predicate IsPublicKey(prefix: char, s: string) {
    |s| == 56 && s[0] == prefix && forall i :: 0 <= i < |s| ==> 'A' <= s[i] <= 'Z' || '2' <= s[i] <= '7'
  }

  predicate Valid(l: Layout) {
    && l.account != "" && l.account !in {ACCOUNT_AUTH, ACCOUNT_SYSTEM, ACCOUNT_GLOBAL}
    && (forall i :: 0 <= i < |l.account| ==> IsAccountChar(l.account[i]))
    && IsPublicKey('U', l.dataUserPub)
    && l.maxStore >= 0
    && (l.authEnabled ==>
          IsPublicKey('A', l.issuerPub) && IsPublicKey('U', l.calloutUserPub) && l.calloutUserPub != l.dataUserPub)
  }

  // A letter, digit, underscore or hyphen, by its ASCII code.
  predicate IsNameCode(n: int) {
    48 <= n <= 57 || 65 <= n <= 90 || 97 <= n <= 122 || n == 95 || n == 45
  }

  // The part of a public key after its prefix letter: base32, by its ASCII codes.
  predicate IsKeyBody(s: string) {
    |s| == 55 && forall i :: 0 <= i < |s| ==> 65 <= s[i] as int <= 90 || 50 <= s[i] as int <= 55
  }

  lemma KeyOfBody(prefix: char, s: string)
    requires prefix in "AU" && IsKeyBody(s)
    ensures IsPublicKey(prefix, [prefix] + s)
  {
    var k := [prefix] + s;
    forall i | 0 <= i < |k| ensures 'A' <= k[i] <= 'Z' || '2' <= k[i] <= '7' {
      assert i > 0 ==> k[i] == s[i - 1];
    }
  }

  /** Every account name over the allowed characters but the reserved ones, every key of the right kind
      and every storage cap, 0 for none included, makes a valid layout: without worker authentication
      whatever the other two keys are, and with it when the two users differ. */
  lemma LayoutsAccepted(account: string, issuer: string, data: string, callout: string, store: nat)
    requires account != "" && account != "AUTH" && account != "SYS"
    requires forall i :: 0 <= i < |account| ==> IsNameCode(account[i] as int)
    requires IsKeyBody(data)
    ensures Valid(Layout(account, false, issuer, "U" + data, callout, store))
    ensures IsKeyBody(issuer) && IsKeyBody(callout) && callout != data ==>
              Valid(Layout(account, true, "A" + issuer, "U" + data, "U" + callout, store))
  {
    forall i | 0 <= i < |account| ensures IsAccountChar(account[i]) && account[i] != '$' {
    }
    assert ACCOUNT_GLOBAL[0] == '$';
    KeyOfBody('U', data);
    assert ['U'] + data == "U" + data;
    if IsKeyBody(issuer) && IsKeyBody(callout) && callout != data {
      KeyOfBody('A', issuer);
      KeyOfBody('U', callout);
      assert ['A'] + issuer == "A" + issuer && ['U'] + callout == "U" + callout;
      assert ("U" + data)[1..] == data && ("U" + callout)[1..] == callout;
    }
  }

  // ---- Apply ----

  // A user's allow lists, None for no limits.
  datatype Grants = Grants(publish: seq<string>, subscribe: seq<string>)
  datatype User = User(account: string, grants: Option<Grants>)
  datatype Callout = Callout(issuer: string, account: string, authUsers: seq<string>)
  datatype Config = Config(accounts: set<string>, users: map<string, User>, callout: Option<Callout>,
                           noAuthUser: Option<string>)

  const SERVER_GRANTS := Grants([">"], [">"])

  function UserMap(nkeys: seq<(string, User)>): map<string, User> {
    if nkeys == [] then map[]
    else UserMap(nkeys[..|nkeys| - 1])[nkeys[|nkeys| - 1].0 := nkeys[|nkeys| - 1].1]
  }

  // What the layout means.
  function Intended(l: Layout): Config {
    var data := map[l.dataUserPub := User(l.account, Some(SERVER_GRANTS))];
    if l.authEnabled then
      Config({l.account, ACCOUNT_AUTH},
             data[l.calloutUserPub := User(ACCOUNT_AUTH, None)],
             Some(Callout(l.issuerPub, ACCOUNT_AUTH, [l.dataUserPub, l.calloutUserPub])),
             None)
    else
      Config({l.account, ACCOUNT_AUTH}, data, None, Some(l.dataUserPub))
  }

  // The system user's key is another user's, or empty for none.
  predicate ValidSystemUser(l: Layout, sys: string) {
    sys == "" || (IsPublicKey('U', sys) && sys != l.dataUserPub && sys != l.calloutUserPub)
  }

  // The key of the AUTH account's user, if it has one.
  function CalloutKey(l: Layout): string {
    if l.authEnabled then l.calloutUserPub else ""
  }

  // Those who authenticate without the callout.
  function AuthUsers(l: Layout, sys: string): seq<string> {
    [l.dataUserPub, l.calloutUserPub] + if sys == "" then [] else [sys]
  }

  // A configuration with the system account declared, and its user in it and exempt from the callout.
  function WithSystem(c: Config, sys: string): Config {
    if sys == "" then c.(accounts := c.accounts + {ACCOUNT_SYSTEM})
    else
      c.(accounts := c.accounts + {ACCOUNT_SYSTEM},
         users := c.users[sys := User(ACCOUNT_SYSTEM, None)],
         callout := if c.callout.None? then None
                    else Some(c.callout.value.(authUsers := c.callout.value.authUsers + [sys])))
  }

  // nats-server's Options, as far as Apply sets them.
  class Options {
    var accounts: seq<string>
    var nkeys: seq<(string, User)>
    var alwaysEnableNonce: bool
    var callout: Option<Callout>
    var noAuthUser: string

    constructor ()
    {
      accounts, nkeys, alwaysEnableNonce, callout, noAuthUser := [], [], false, None, "";
    }

    function State(): Config
      reads this
    {
      Config((set a | a in accounts), UserMap(nkeys), callout, if noAuthUser == "" then None else Some(noAuthUser))
    }

    /** Layout.Apply: refused layouts change nothing; otherwise the options are the layout's,
        whatever they were before, with one entry per account and per user. */
    method Apply(l: Layout) returns (ok: bool)
      modifies this
      ensures ok <==> Valid(l)
      ensures !ok ==> State() == old(State()) && alwaysEnableNonce == old(alwaysEnableNonce)
      ensures ok ==> State() == Intended(l) && alwaysEnableNonce
      ensures ok ==> |accounts| == |State().accounts| && |nkeys| == |State().users|
    {
      if !Valid(l) {
        return false;
      }
      accounts := [l.account, ACCOUNT_AUTH];
      nkeys := [(l.dataUserPub, User(l.account, Some(SERVER_GRANTS)))];
      assert nkeys[..0] == [];
      assert UserMap(nkeys) == map[l.dataUserPub := User(l.account, Some(SERVER_GRANTS))];
      if l.authEnabled {
        ghost var first := nkeys;
        nkeys := nkeys + [(l.calloutUserPub, User(ACCOUNT_AUTH, None))];
        assert nkeys[..1] == first;
      }
      alwaysEnableNonce := true;
      assert (set a | a in accounts) == {l.account, ACCOUNT_AUTH};
      if l.authEnabled {
        noAuthUser := "";
        callout := Some(Callout(l.issuerPub, ACCOUNT_AUTH, [l.dataUserPub, l.calloutUserPub]));
        return true;
      }
      callout := None;
      noAuthUser := l.dataUserPub;
      assert |noAuthUser| == 56;
      return true;
    }
  }

  // ---- ConfigFragment ----

  // A decimal number, as %d prints it.
  function Digits(n: nat): (s: string)
    ensures s != "" && forall i :: 0 <= i < |s| ==> '0' <= s[i] <= '9'
  {
    if n < 10 then [('0' as int + n) as char] else Digits(n / 10) + [('0' as int + n % 10) as char]
  }

  // `key: value` on one line.
  function Setting(key: string, value: Token, pad: string): seq<Piece> {
    [Piece(Word(key), ""), Piece(Colon, " "), Piece(value, pad)]
  }

  // `key: {allow: [">"]}`, as renderPermissions prints one allow list.
  function AllowPieces(key: string, pad: string): seq<Piece> {
    [Piece(Word(key), ""), Piece(Colon, " "), Piece(LBrace, ""), Piece(Word("allow"), ""), Piece(Colon, " "),
     Piece(LBrack, ""), Piece(Str(">"), ""), Piece(RBrack, ""), Piece(RBrace, pad)]
  }

  function JetStreamPieces(l: Layout): seq<Piece> {
    [Piece(Word("jetstream"), ""), Piece(Colon, " ")] +
    if l.maxStore > 0 then
      [Piece(LBrace, "")] + Setting("max_store", Word(Digits(l.maxStore)), "") + [Piece(RBrace, "\n    ")]
    else
      [Piece(Word("enabled"), "\n    ")]
  }

  function DataUserPieces(l: Layout): seq<Piece> {
    [Piece(LBrace, "")] + Setting("nkey", Str(l.dataUserPub), ", ")
    + [Piece(Word("permissions"), ""), Piece(Colon, " "), Piece(LBrace, "")]
    + AllowPieces("publish", ", ") + AllowPieces("subscribe", "")
    + [Piece(RBrace, ""), Piece(RBrace, "\n    ")]
  }

  function DataAccountPieces(l: Layout): seq<Piece> {
    [Piece(Str(l.account), " "), Piece(LBrace, "\n    ")]
    + JetStreamPieces(l)
    + [Piece(Word("users"), ""), Piece(Colon, " "), Piece(LBrack, "\n      ")]
    + DataUserPieces(l)
    + [Piece(RBrack, "\n  "), Piece(RBrace, "\n  ")]
  }

  // An account with one user, known by its key alone, or with none.
  function AccountPieces(name: string, key: string, pad: string): seq<Piece> {
    if key == "" then
      [Piece(Str(name), " "), Piece(LBrace, "\n  "), Piece(RBrace, pad)]
    else
      [Piece(Str(name), " "), Piece(LBrace, "\n    "), Piece(Word("users"), ""), Piece(Colon, " "),
       Piece(LBrack, ""), Piece(LBrace, "")]
      + Setting("nkey", Str(key), "")
      + [Piece(RBrace, ""), Piece(RBrack, "\n  "), Piece(RBrace, pad)]
  }

  // quoteList.
  function QuoteList(items: seq<string>): seq<Piece> {
    if items == [] then []
    else [Piece(Str(items[0]), if |items| > 1 then ", " else "")] + QuoteList(items[1..])
  }

  // The authorization block up to its list of users.
  function AuthorizationHead(l: Layout): seq<Piece> {
    [Piece(Word("authorization"), " "), Piece(LBrace, "\n  "), Piece(Word("auth_callout"), " "),
     Piece(LBrace, "\n    ")]
    + Setting("issuer", Str(l.issuerPub), "\n    ")
    + Setting("account", Str(ACCOUNT_AUTH), "\n    ")
    + [Piece(Word("auth_users"), ""), Piece(Colon, " "), Piece(LBrack, "")]
  }

  function AuthorizationPieces(l: Layout, sys: string): seq<Piece> {
    if l.authEnabled then
      AuthorizationHead(l)
      + QuoteList(AuthUsers(l, sys))
      + [Piece(RBrack, "\n  "), Piece(RBrace, "\n"), Piece(RBrace, "\n")]
    else
      Setting("no_auth_user", Str(l.dataUserPub), "\n")
  }

  // The fragment after its comment lines.
  function Fragment(l: Layout, sys: string): seq<Piece> {
    [Piece(Word("accounts"), " "), Piece(LBrace, "\n  ")]
    + DataAccountPieces(l)
    + AccountPieces(ACCOUNT_AUTH, CalloutKey(l), "\n  ")
    + AccountPieces(ACCOUNT_SYSTEM, sys, "\n")
    + [Piece(RBrace, "\n")]
    + Setting("system_account", Str(ACCOUNT_SYSTEM), "\n")
    + AuthorizationPieces(l, sys)
  }

  // A comment line, whatever it says.
  function Comment(text: string, rest: string): string {
    "#" + (text + ("\n" + rest))
  }

  /** ConfigFragmentWithSystemUser, which is ConfigFragment for an empty key: the text, or the
      refusal of a layout or a key. With auth on, a second comment warns against no_auth_user. */
  function ConfigFragment(l: Layout, sys: string, title: string, warning: string): Option<string> {
    if !Valid(l) || !ValidSystemUser(l, sys) then None
    else
      var text := Text(Fragment(l, sys));
      Some(Comment(title, if l.authEnabled then Comment(warning, text) else text))
  }

  // ---- the document the fragment prints ----

  function Leaves(key: string, value: Token): Entry {
    Entry(Word(key), true, Leaf(value))
  }

  function AllowDoc(key: string): Entry {
    Entry(Word(key), true, Map([Entry(Word("allow"), true, List([Leaf(Str(">"))]))]))
  }

  function JetStreamDoc(l: Layout): Entry {
    Entry(Word("jetstream"), true,
          if l.maxStore > 0 then Map([Leaves("max_store", Word(Digits(l.maxStore)))]) else Leaf(Word("enabled")))
  }

  function DataUserDoc(l: Layout): Doc {
    Map([Leaves("nkey", Str(l.dataUserPub)),
         Entry(Word("permissions"), true, Map([AllowDoc("publish"), AllowDoc("subscribe")]))])
  }

  function DataAccountDoc(l: Layout): Entry {
    Entry(Str(l.account), false, Map([JetStreamDoc(l), Entry(Word("users"), true, List([DataUserDoc(l)]))]))
  }

  function AccountDoc(name: string, key: string): Entry {
    Entry(Str(name), false,
          Map(if key == "" then [] else [Entry(Word("users"), true, List([Map([Leaves("nkey", Str(key))])]))]))
  }

  function AccountsDoc(l: Layout, sys: string): Entry {
    Entry(Word("accounts"), false,
          Map([DataAccountDoc(l), AccountDoc(ACCOUNT_AUTH, CalloutKey(l)), AccountDoc(ACCOUNT_SYSTEM, sys)]))
  }

  function Quoted(items: seq<string>): seq<Doc> {
    if items == [] then [] else [Leaf(Str(items[0]))] + Quoted(items[1..])
  }

  function AuthUsersDoc(l: Layout, sys: string): Entry {
    Entry(Word("auth_users"), true, List(Quoted(AuthUsers(l, sys))))
  }

  function CalloutDoc(l: Layout, sys: string): Doc {
    Map([Leaves("issuer", Str(l.issuerPub)), Leaves("account", Str(ACCOUNT_AUTH)), AuthUsersDoc(l, sys)])
  }

  function AuthorizationDoc(l: Layout, sys: string): Entry {
    if l.authEnabled then
      Entry(Word("authorization"), false, Map([Entry(Word("auth_callout"), false, CalloutDoc(l, sys))]))
    else
      Leaves("no_auth_user", Str(l.dataUserPub))
  }

  function FragmentDoc(l: Layout, sys: string): seq<Entry> {
    [AccountsDoc(l, sys), Leaves("system_account", Str(ACCOUNT_SYSTEM)), AuthorizationDoc(l, sys)]
  }

  // ---- the fragment's tokens are the document's ----

  lemma OneEntry(e: Entry)
    ensures EntriesToks([e]) == EntryToks(e)
  {
    assert [e][1..] == [];
  }

  lemma TwoEntries(e: Entry, f: Entry)
    ensures EntriesToks([e, f]) == EntryToks(e) + EntryToks(f)
  {
    assert [e, f][1..] == [f];
    OneEntry(f);
  }

  lemma ThreeEntries(e: Entry, f: Entry, g: Entry)
    ensures EntriesToks([e, f, g]) == EntryToks(e) + (EntryToks(f) + EntryToks(g))
  {
    assert [e, f, g][1..] == [f, g];
    TwoEntries(f, g);
  }

  lemma OneItem(d: Doc)
    ensures ItemsToks([d]) == DocToks(d)
  {
    assert [d][1..] == [];
  }

  lemma {:induction false} QuotedToks(items: seq<string>)
    ensures Toks(QuoteList(items)) == ItemsToks(Quoted(items))
  {
    if items != [] {
      QuotedToks(items[1..]);
      var first := [Piece(Str(items[0]), if |items| > 1 then ", " else "")];
      ToksJoin(first, QuoteList(items[1..]));
      assert Toks(first) == [Str(items[0])];
      assert Quoted(items)[1..] == Quoted(items[1..]);
    }
  }

  lemma LeafToks(key: string, value: Token)
    ensures EntryToks(Leaves(key, value)) == [Word(key), Colon, value]
  {
  }

  lemma AllowToks(key: string, pad: string)
    ensures Toks(AllowPieces(key, pad)) == EntryToks(AllowDoc(key))
  {
    var inner := Entry(Word("allow"), true, List([Leaf(Str(">"))]));
    OneItem(Leaf(Str(">")));
    assert EntryToks(inner) == [Word("allow"), Colon, LBrack, Str(">"), RBrack];
    OneEntry(inner);
    assert EntryToks(AllowDoc(key)) == [Word(key), Colon, LBrace] + EntryToks(inner) + [RBrace];
  }

  lemma JetStreamToks(l: Layout)
    ensures Toks(JetStreamPieces(l)) == EntryToks(JetStreamDoc(l))
  {
    if l.maxStore > 0 {
      var e := Leaves("max_store", Word(Digits(l.maxStore)));
      OneEntry(e);
      LeafToks("max_store", Word(Digits(l.maxStore)));
      assert EntryToks(JetStreamDoc(l)) == [Word("jetstream"), Colon, LBrace] + EntryToks(e) + [RBrace];
    }
  }

  lemma ToksJoin(a: seq<Piece>, b: seq<Piece>)
    ensures Toks(a + b) == Toks(a) + Toks(b)
  {
  }

  lemma DataUserPiecesToks(l: Layout)
    ensures Toks(DataUserPieces(l)) ==
            [LBrace] + [Word("nkey"), Colon, Str(l.dataUserPub)] + [Word("permissions"), Colon, LBrace]
            + Toks(AllowPieces("publish", ", ")) + Toks(AllowPieces("subscribe", "")) + ([RBrace] + [RBrace])
  {
    var a := [Piece(LBrace, "")] + Setting("nkey", Str(l.dataUserPub), ", ")
             + [Piece(Word("permissions"), ""), Piece(Colon, " "), Piece(LBrace, "")];
    var p, q := AllowPieces("publish", ", "), AllowPieces("subscribe", "");
    var z := [Piece(RBrace, ""), Piece(RBrace, "\n    ")];
    assert DataUserPieces(l) == a + p + q + z;
    assert Toks(a) == [LBrace] + [Word("nkey"), Colon, Str(l.dataUserPub)] + [Word("permissions"), Colon, LBrace];
    assert Toks(z) == [RBrace] + [RBrace];
    ToksJoin(a, p);
    ToksJoin(a + p, q);
    ToksJoin(a + p + q, z);
  }

  lemma PermissionsToks(p: Entry, q: Entry)
    ensures EntryToks(Entry(Word("permissions"), true, Map([p, q]))) ==
            [Word("permissions"), Colon, LBrace] + (EntryToks(p) + EntryToks(q)) + [RBrace]
  {
    TwoEntries(p, q);
  }

  lemma MapOfTwo(e: Entry, f: Entry)
    ensures DocToks(Map([e, f])) == [LBrace] + (EntryToks(e) + EntryToks(f)) + [RBrace]
  {
    TwoEntries(e, f);
  }

  lemma Regroup(a: seq<Token>, b: seq<Token>, c: seq<Token>, p: seq<Token>, q: seq<Token>, z: seq<Token>)
    ensures a + b + c + p + q + (z + z) == a + (b + (c + (p + q) + z)) + z
  {
  }

  lemma DataUserToks(l: Layout)
    ensures Toks(DataUserPieces(l)) == DocToks(DataUserDoc(l))
  {
    var p, q := AllowDoc("publish"), AllowDoc("subscribe");
    AllowToks("publish", ", ");
    AllowToks("subscribe", "");
    PermissionsToks(p, q);
    LeafToks("nkey", Str(l.dataUserPub));
    MapOfTwo(Leaves("nkey", Str(l.dataUserPub)), Entry(Word("permissions"), true, Map([p, q])));
    DataUserPiecesToks(l);
    Regroup([LBrace], [Word("nkey"), Colon, Str(l.dataUserPub)], [Word("permissions"), Colon, LBrace],
            EntryToks(p), EntryToks(q), [RBrace]);
  }

  lemma DataAccountShape(name: string, j: Entry, d: Doc)
    ensures EntryToks(Entry(Str(name), false, Map([j, Entry(Word("users"), true, List([d]))]))) ==
            [Str(name), LBrace] + (EntryToks(j) + ([Word("users"), Colon, LBrack] + DocToks(d) + [RBrack])) + [RBrace]
  {
    OneItem(d);
    TwoEntries(j, Entry(Word("users"), true, List([d])));
  }

  lemma DataAccountPiecesToks(l: Layout)
    ensures Toks(DataAccountPieces(l)) ==
            [Str(l.account), LBrace]
            + (Toks(JetStreamPieces(l)) + ([Word("users"), Colon, LBrack] + Toks(DataUserPieces(l)) + [RBrack]))
            + [RBrace]
  {
  }

  lemma DataAccountToks(l: Layout)
    ensures Toks(DataAccountPieces(l)) == EntryToks(DataAccountDoc(l))
  {
    JetStreamToks(l);
    DataUserToks(l);
    DataAccountPiecesToks(l);
    DataAccountShape(l.account, JetStreamDoc(l), DataUserDoc(l));
  }

  lemma UserAccountShape(name: string, e: Entry)
    ensures EntryToks(Entry(Str(name), false, Map([Entry(Word("users"), true, List([Map([e])]))]))) ==
            [Str(name), LBrace] + ([Word("users"), Colon, LBrack] + ([LBrace] + EntryToks(e) + [RBrace]) + [RBrack])
            + [RBrace]
  {
    var users := Entry(Word("users"), true, List([Map([e])]));
    OneEntry(e);
    OneItem(Map([e]));
    OneEntry(users);
  }

  lemma AccountPiecesToks(name: string, key: string, pad: string)
    requires key != ""
    ensures Toks(AccountPieces(name, key, pad)) ==
            [Str(name), LBrace]
            + ([Word("users"), Colon, LBrack] + ([LBrace] + [Word("nkey"), Colon, Str(key)] + [RBrace]) + [RBrack])
            + [RBrace]
  {
  }

  lemma AccountToks(name: string, key: string, pad: string)
    ensures Toks(AccountPieces(name, key, pad)) == EntryToks(AccountDoc(name, key))
  {
    if key == "" {
      EmptyAccountToks(name);
    } else {
      LeafToks("nkey", Str(key));
      AccountPiecesToks(name, key, pad);
      UserAccountShape(name, Leaves("nkey", Str(key)));
    }
  }

  lemma EmptyAccountToks(name: string)
    ensures EntryToks(Entry(Str(name), false, Map([]))) == [Str(name), LBrace, RBrace]
  {
    assert EntriesToks([]) == [];
    assert DocToks(Map([])) == [LBrace] + [] + [RBrace];
  }

  lemma AccountsShape(a: Entry, b: Entry, c: Entry)
    ensures EntryToks(Entry(Word("accounts"), false, Map([a, b, c]))) ==
            [Word("accounts"), LBrace] + (EntryToks(a) + (EntryToks(b) + EntryToks(c))) + [RBrace]
  {
    ThreeEntries(a, b, c);
  }

  lemma AccountsToks(l: Layout, sys: string)
    ensures EntryToks(AccountsDoc(l, sys)) ==
            [Word("accounts"), LBrace]
            + (Toks(DataAccountPieces(l))
               + (Toks(AccountPieces(ACCOUNT_AUTH, CalloutKey(l), "\n  "))
                  + Toks(AccountPieces(ACCOUNT_SYSTEM, sys, "\n"))))
            + [RBrace]
  {
    DataAccountToks(l);
    AccountToks(ACCOUNT_AUTH, CalloutKey(l), "\n  ");
    AccountToks(ACCOUNT_SYSTEM, sys, "\n");
    AccountsShape(DataAccountDoc(l), AccountDoc(ACCOUNT_AUTH, CalloutKey(l)), AccountDoc(ACCOUNT_SYSTEM, sys));
  }

  lemma CalloutShape(a: Entry, b: Entry, items: seq<Doc>)
    ensures var users := Entry(Word("auth_users"), true, List(items));
            EntryToks(Entry(Word("authorization"), false,
                            Map([Entry(Word("auth_callout"), false, Map([a, b, users]))]))) ==
            [Word("authorization"), LBrace]
            + ([Word("auth_callout"), LBrace]
               + (EntryToks(a) + (EntryToks(b) + ([Word("auth_users"), Colon, LBrack] + ItemsToks(items) + [RBrack])))
               + [RBrace])
            + [RBrace]
  {
    var users := Entry(Word("auth_users"), true, List(items));
    ThreeEntries(a, b, users);
    OneEntry(Entry(Word("auth_callout"), false, Map([a, b, users])));
  }

  lemma RegroupCallout(g: seq<Token>, h: seq<Token>, a: seq<Token>, b: seq<Token>, u: seq<Token>, q: seq<Token>,
                       y: seq<Token>, z: seq<Token>)
    ensures g + (h + (a + (b + (u + q + y))) + z) + z == (g + h + a + b + u) + q + (y + z + z)
  {
  }

  lemma HeadToks(l: Layout)
    ensures Toks(AuthorizationHead(l)) ==
            [Word("authorization"), LBrace] + [Word("auth_callout"), LBrace] + [Word("issuer"), Colon, Str(l.issuerPub)]
            + [Word("account"), Colon, Str(ACCOUNT_AUTH)] + [Word("auth_users"), Colon, LBrack]
  {
  }

  lemma AuthorizationPiecesToks(l: Layout, sys: string)
    requires l.authEnabled
    ensures Toks(AuthorizationPieces(l, sys)) ==
            Toks(AuthorizationHead(l)) + Toks(QuoteList(AuthUsers(l, sys))) + ([RBrack] + [RBrace] + [RBrace])
  {
    var a, q := AuthorizationHead(l), QuoteList(AuthUsers(l, sys));
    var z := [Piece(RBrack, "\n  "), Piece(RBrace, "\n"), Piece(RBrace, "\n")];
    ToksJoin(a, q);
    ToksJoin(a + q, z);
    assert Toks(z) == [RBrack] + [RBrace] + [RBrace];
  }

  lemma AuthorizationToks(l: Layout, sys: string)
    ensures Toks(AuthorizationPieces(l, sys)) == EntryToks(AuthorizationDoc(l, sys))
  {
    if l.authEnabled {
      LeafToks("issuer", Str(l.issuerPub));
      LeafToks("account", Str(ACCOUNT_AUTH));
      QuotedToks(AuthUsers(l, sys));
      CalloutShape(Leaves("issuer", Str(l.issuerPub)), Leaves("account", Str(ACCOUNT_AUTH)), Quoted(AuthUsers(l, sys)));
      HeadToks(l);
      AuthorizationPiecesToks(l, sys);
      RegroupCallout([Word("authorization"), LBrace], [Word("auth_callout"), LBrace],
                     [Word("issuer"), Colon, Str(l.issuerPub)],
                     [Word("account"), Colon, Str(ACCOUNT_AUTH)], [Word("auth_users"), Colon, LBrack],
                     Toks(QuoteList(AuthUsers(l, sys))), [RBrack], [RBrace]);
    } else {
      LeafToks("no_auth_user", Str(l.dataUserPub));
    }
  }

  lemma FragmentPiecesToks(l: Layout, sys: string)
    ensures Toks(Fragment(l, sys)) ==
            [Word("accounts"), LBrace] + Toks(DataAccountPieces(l))
            + Toks(AccountPieces(ACCOUNT_AUTH, CalloutKey(l), "\n  ")) + Toks(AccountPieces(ACCOUNT_SYSTEM, sys, "\n"))
            + ([RBrace] + [Word("system_account"), Colon, Str(ACCOUNT_SYSTEM)])
            + Toks(AuthorizationPieces(l, sys))
  {
    var a := [Piece(Word("accounts"), " "), Piece(LBrace, "\n  ")];
    var d, u, v, z := DataAccountPieces(l), AccountPieces(ACCOUNT_AUTH, CalloutKey(l), "\n  "),
                      AccountPieces(ACCOUNT_SYSTEM, sys, "\n"), AuthorizationPieces(l, sys);
    var s := [Piece(RBrace, "\n")] + Setting("system_account", Str(ACCOUNT_SYSTEM), "\n");
    assert Fragment(l, sys) == a + d + u + v + s + z;
    assert Toks(a) == [Word("accounts"), LBrace];
    assert Toks(s) == [RBrace] + [Word("system_account"), Colon, Str(ACCOUNT_SYSTEM)];
    ToksJoin(a, d);
    ToksJoin(a + d, u);
    ToksJoin(a + d + u, v);
    ToksJoin(a + d + u + v, s);
    ToksJoin(a + d + u + v + s, z);
  }

  lemma RegroupFragment(a: seq<Token>, d: seq<Token>, u: seq<Token>, v: seq<Token>, b: seq<Token>, s: seq<Token>,
                        z: seq<Token>)
    ensures a + d + u + v + (b + s) + z == (a + (d + (u + v)) + b) + (s + z)
  {
  }

  lemma FragmentToks(l: Layout, sys: string)
    ensures Toks(Fragment(l, sys)) == EntriesToks(FragmentDoc(l, sys))
  {
    FragmentPiecesToks(l, sys);
    AccountsToks(l, sys);
    AuthorizationToks(l, sys);
    LeafToks("system_account", Str(ACCOUNT_SYSTEM));
    ThreeEntries(AccountsDoc(l, sys), Leaves("system_account", Str(ACCOUNT_SYSTEM)), AuthorizationDoc(l, sys));
    RegroupFragment([Word("accounts"), LBrace], Toks(DataAccountPieces(l)),
                    Toks(AccountPieces(ACCOUNT_AUTH, CalloutKey(l), "\n  ")),
                    Toks(AccountPieces(ACCOUNT_SYSTEM, sys, "\n")), [RBrace],
                    [Word("system_account"), Colon, Str(ACCOUNT_SYSTEM)],
                    Toks(AuthorizationPieces(l, sys)));
  }

  // ---- the fragment is printable ----

  lemma PrintableJoin(a: seq<Piece>, b: seq<Piece>)
    requires Printable(a) && Printable(b)
    ensures Printable(a + b)
  {
  }

  lemma SettingPrintable(key: string, value: Token, pad: string)
    requires Wordy(key) && PieceOk(Piece(value, pad)) && !value.Word?
    ensures Printable(Setting(key, value, pad))
  {
  }

  // The words the fragment uses as keys and values.
  lemma AccountWords()
    ensures Wordy("accounts") && Wordy("users") && Wordy("nkey") && Wordy("enabled") && Wordy("jetstream")
            && Wordy("max_store")
  {
  }

  lemma GrantWords()
    ensures Wordy("allow") && Wordy("publish") && Wordy("subscribe") && Wordy("permissions")
  {
  }

  lemma AuthorizationWords()
    ensures Wordy("issuer") && Wordy("account") && Wordy("authorization")
    ensures Wordy("auth_callout") && Wordy("auth_users")
  {
  }

  lemma TopWords()
    ensures Wordy("system_account") && Wordy("no_auth_user")
  {
  }

  lemma KeysQuotable(l: Layout)
    requires Valid(l)
    ensures Quotable(l.account) && Quotable(l.dataUserPub) && Quotable(">")
    ensures l.authEnabled ==> Quotable(l.issuerPub) && Quotable(l.calloutUserPub)
    ensures Quotable(ACCOUNT_AUTH) && Quotable(ACCOUNT_SYSTEM)
  {
  }

  lemma JetStreamPrintable(l: Layout)
    ensures Printable(JetStreamPieces(l))
  {
    AccountWords();
  }

  lemma AllowPrintable(key: string, pad: string)
    requires Wordy(key) && Seps(pad)
    ensures Printable(AllowPieces(key, pad))
  {
    GrantWords();
  }

  lemma DataUserPrintable(l: Layout)
    requires Valid(l)
    ensures Printable(DataUserPieces(l))
  {
    AccountWords();
    GrantWords();
    KeysQuotable(l);
    var a, b := [Piece(LBrace, "")], Setting("nkey", Str(l.dataUserPub), ", ");
    var c := [Piece(Word("permissions"), ""), Piece(Colon, " "), Piece(LBrace, "")];
    var d := [Piece(RBrace, ""), Piece(RBrace, "\n    ")];
    SettingPrintable("nkey", Str(l.dataUserPub), ", ");
    AllowPrintable("publish", ", ");
    AllowPrintable("subscribe", "");
    PrintableJoin(a, b);
    PrintableJoin(a + b, c);
    PrintableJoin(a + b + c, AllowPieces("publish", ", "));
    PrintableJoin(a + b + c + AllowPieces("publish", ", "), AllowPieces("subscribe", ""));
    PrintableJoin(a + b + c + AllowPieces("publish", ", ") + AllowPieces("subscribe", ""), d);
  }

  lemma DataAccountPrintable(l: Layout)
    requires Valid(l)
    ensures Printable(DataAccountPieces(l))
  {
    AccountWords();
    KeysQuotable(l);
    JetStreamPrintable(l);
    DataUserPrintable(l);
    var a := [Piece(Str(l.account), " "), Piece(LBrace, "\n    ")];
    var b := [Piece(Word("users"), ""), Piece(Colon, " "), Piece(LBrack, "\n      ")];
    var c := [Piece(RBrack, "\n  "), Piece(RBrace, "\n  ")];
    PrintableJoin(a, JetStreamPieces(l));
    PrintableJoin(a + JetStreamPieces(l), b);
    PrintableJoin(a + JetStreamPieces(l) + b, DataUserPieces(l));
    PrintableJoin(a + JetStreamPieces(l) + b + DataUserPieces(l), c);
  }

  lemma AccountPrintable(name: string, key: string, pad: string)
    requires Quotable(name) && Quotable(key) && Seps(pad)
    ensures Printable(AccountPieces(name, key, pad))
  {
    if key != "" {
      AccountWords();
      var a := [Piece(Str(name), " "), Piece(LBrace, "\n    "), Piece(Word("users"), ""), Piece(Colon, " "),
                Piece(LBrack, ""), Piece(LBrace, "")];
      var b := Setting("nkey", Str(key), "");
      SettingPrintable("nkey", Str(key), "");
      PrintableJoin(a, b);
      PrintableJoin(a + b, [Piece(RBrace, ""), Piece(RBrack, "\n  "), Piece(RBrace, pad)]);
    }
  }

  lemma {:induction false} QuotedPrintable(items: seq<string>)
    requires forall i :: 0 <= i < |items| ==> Quotable(items[i])
    ensures Printable(QuoteList(items))
  {
    if items != [] {
      QuotedPrintable(items[1..]);
      PrintableJoin([Piece(Str(items[0]), if |items| > 1 then ", " else "")], QuoteList(items[1..]));
    }
  }

  lemma AuthorizationPrintable(l: Layout, sys: string)
    requires Valid(l) && ValidSystemUser(l, sys)
    ensures Printable(AuthorizationPieces(l, sys))
  {
    KeysQuotable(l);
    if l.authEnabled {
      CalloutPrintable(l, sys);
    } else {
      TopWords();
      SettingPrintable("no_auth_user", Str(l.dataUserPub), "\n");
    }
  }

  lemma CalloutPrintable(l: Layout, sys: string)
    requires Valid(l) && l.authEnabled && ValidSystemUser(l, sys)
    ensures Printable(AuthorizationPieces(l, sys))
  {
    KeysQuotable(l);
    SystemQuotable(l, sys);
    HeadPrintable(l);
    QuotedPrintable(AuthUsers(l, sys));
    var a, q := AuthorizationHead(l), QuoteList(AuthUsers(l, sys));
    PrintableJoin(a, q);
    PrintableJoin(a + q, [Piece(RBrack, "\n  "), Piece(RBrace, "\n"), Piece(RBrace, "\n")]);
  }

  lemma HeadPrintable(l: Layout)
    requires Valid(l) && l.authEnabled
    ensures Printable(AuthorizationHead(l))
  {
    AuthorizationWords();
    KeysQuotable(l);
    var a := [Piece(Word("authorization"), " "), Piece(LBrace, "\n  "), Piece(Word("auth_callout"), " "),
              Piece(LBrace, "\n    ")];
    var b, c := Setting("issuer", Str(l.issuerPub), "\n    "), Setting("account", Str(ACCOUNT_AUTH), "\n    ");
    SettingPrintable("issuer", Str(l.issuerPub), "\n    ");
    SettingPrintable("account", Str(ACCOUNT_AUTH), "\n    ");
    PrintableJoin(a, b);
    PrintableJoin(a + b, c);
    PrintableJoin(a + b + c, [Piece(Word("auth_users"), ""), Piece(Colon, " "), Piece(LBrack, "")]);
  }

  lemma SystemQuotable(l: Layout, sys: string)
    requires ValidSystemUser(l, sys)
    ensures Quotable(sys)
  {
  }

  lemma FragmentPrintable(l: Layout, sys: string)
    requires Valid(l) && ValidSystemUser(l, sys)
    ensures Printable(Fragment(l, sys))
  {
    AccountWords();
    TopWords();
    KeysQuotable(l);
    SystemQuotable(l, sys);
    DataAccountPrintable(l);
    AccountPrintable(ACCOUNT_AUTH, CalloutKey(l), "\n  ");
    AccountPrintable(ACCOUNT_SYSTEM, sys, "\n");
    AuthorizationPrintable(l, sys);
    SettingPrintable("system_account", Str(ACCOUNT_SYSTEM), "\n");
    var a := [Piece(Word("accounts"), " "), Piece(LBrace, "\n  ")];
    var d, u, v := DataAccountPieces(l), AccountPieces(ACCOUNT_AUTH, CalloutKey(l), "\n  "),
                   AccountPieces(ACCOUNT_SYSTEM, sys, "\n");
    var b, c := [Piece(RBrace, "\n")], Setting("system_account", Str(ACCOUNT_SYSTEM), "\n");
    PrintableJoin(a, d);
    PrintableJoin(a + d, u);
    PrintableJoin(a + d + u, v);
    PrintableJoin(a + d + u + v, b);
    PrintableJoin(a + d + u + v + b, c);
    PrintableJoin(a + d + u + v + b + c, AuthorizationPieces(l, sys));
  }
}

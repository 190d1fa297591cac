/**
  Text in nats-server's configuration format, as far as sqi prints it:
  pieces that print to text, a lexer and a parser that read it back, and the round
  trip of both for every document.
 */
module ConfigText {
  import opened Common

  datatype Token = Word(s: string) | Str(s: string) | LBrace | RBrace | LBrack | RBrack | Colon

  // A token as printed, with the blanks, newlines and commas after it.
  datatype Piece = Piece(tok: Token, pad: string)

  predicate IsSep(c: char) {
    c == ' ' || c == '\t' || c == '\r' || c == '\n' || c == ','
  }

  predicate IsPunct(c: char) {
    c == '{' || c == '}' || c == '[' || c == ']' || c == ':'
  }

  predicate IsWordChar(c: char) {
    !IsSep(c) && !IsPunct(c) && c != '"' && c != '#' && c != '\\'
  }

  function TokText(t: Token): string {
    match t
    case Word(s) => s
    case Str(s) => "\"" + s + "\""
    case LBrace => "{"
    case RBrace => "}"
    case LBrack => "["
    case RBrack => "]"
    case Colon => ":"
  }

  function Text(ps: seq<Piece>): string {
    if ps == [] then "" else TokText(ps[0].tok) + (ps[0].pad + Text(ps[1..]))
  }

  function Toks(ps: seq<Piece>): seq<Token> {
    seq(|ps|, i requires 0 <= i < |ps| => ps[i].tok)
  }

  // ---- lexer ----

  datatype Mode = Ground | InWord(acc: string) | InStr(acc: string) | InComment

  function Cons(t: Token, o: Option<seq<Token>>): Option<seq<Token>> {
    match o
    case None => None
    case Some(ts) => Some([t] + ts)
  }

  function PunctToken(c: char): Token
    requires IsPunct(c)
  {
    if c == '{' then LBrace
    else if c == '}' then RBrace
    else if c == '[' then LBrack
    else if c == ']' then RBrack
    else Colon
  }

  // Strings with escapes are not read: sqi prints none.
  function Lex(m: Mode, s: string): Option<seq<Token>>
    decreases |s|, if m.Ground? then 0 else 1
  {
    match m
    case Ground =>
      if s == "" then Some([])
      else if IsSep(s[0]) then Lex(Ground, s[1..])
      else if s[0] == '#' then Lex(InComment, s[1..])
      else if s[0] == '"' then Lex(InStr(""), s[1..])
      else if IsPunct(s[0]) then Cons(PunctToken(s[0]), Lex(Ground, s[1..]))
      else if s[0] == '\\' then None
      else Lex(InWord([s[0]]), s[1..])
    case InWord(acc) =>
      if s != "" && IsWordChar(s[0]) then Lex(InWord(acc + [s[0]]), s[1..]) else Cons(Word(acc), Lex(Ground, s))
    case InStr(acc) =>
      if s == "" || s[0] == '\\' then None
      else if s[0] == '"' then Cons(Str(acc), Lex(Ground, s[1..]))
      else Lex(InStr(acc + [s[0]]), s[1..])
    case InComment =>
      if s == "" then Some([]) else if s[0] == '\n' then Lex(Ground, s[1..]) else Lex(InComment, s[1..])
  }

  predicate Seps(pad: string) {
    forall i :: 0 <= i < |pad| ==> IsSep(pad[i])
  }

  // A string that prints between quotes without escapes.
  predicate Quotable(s: string) {
    forall i :: 0 <= i < |s| ==> s[i] != '"' && s[i] != '\\'
  }

  predicate Wordy(s: string) {
    s != "" && forall i :: 0 <= i < |s| ==> IsWordChar(s[i])
  }

  predicate PieceOk(p: Piece) {
    Seps(p.pad) && (p.tok.Word? ==> Wordy(p.tok.s)) && (p.tok.Str? ==> Quotable(p.tok.s))
  }

  // Words are set off from what follows.
  predicate Printable(ps: seq<Piece>) {
    && (forall i :: 0 <= i < |ps| ==> PieceOk(ps[i]))
    && (forall i :: 0 <= i < |ps| && ps[i].tok.Word? && ps[i].pad == "" ==> i + 1 < |ps| && !ps[i + 1].tok.Word?)
  }

  lemma {:induction false} LexSeps(pad: string, rest: string)
    requires Seps(pad)
    ensures Lex(Ground, pad + rest) == Lex(Ground, rest)
  {
    if pad == "" {
      assert pad + rest == rest;
    } else {
      LexSeps(pad[1..], rest);
      assert (pad + rest)[1..] == pad[1..] + rest;
    }
  }

  lemma {:induction false} LexWordFrom(acc: string, w: string, rest: string)
    requires (forall i :: 0 <= i < |w| ==> IsWordChar(w[i])) && (rest == "" || !IsWordChar(rest[0]))
    ensures Lex(InWord(acc), w + rest) == Cons(Word(acc + w), Lex(Ground, rest))
    decreases |w|
  {
    if w == "" {
      assert w + rest == rest && acc + w == acc;
    } else {
      LexWordFrom(acc + [w[0]], w[1..], rest);
      assert (w + rest)[1..] == w[1..] + rest;
      assert acc + [w[0]] + w[1..] == acc + w;
    }
  }

  lemma {:induction false} LexStrFrom(acc: string, s: string, rest: string)
    requires Quotable(s)
    ensures Lex(InStr(acc), s + ("\"" + rest)) == Cons(Str(acc + s), Lex(Ground, rest))
    decreases |s|
  {
    var t := s + ("\"" + rest);
    if s == "" {
      assert t == "\"" + rest && t[1..] == rest && acc + s == acc;
    } else {
      LexStrFrom(acc + [s[0]], s[1..], rest);
      assert t[1..] == s[1..] + ("\"" + rest);
      assert acc + [s[0]] + s[1..] == acc + s;
    }
  }

  lemma LexWord(w: string, rest: string)
    requires Wordy(w) && (rest == "" || !IsWordChar(rest[0]))
    ensures Lex(Ground, w + rest) == Cons(Word(w), Lex(Ground, rest))
  {
    assert (w + rest)[0] == w[0] && (w + rest)[1..] == w[1..] + rest;
    LexWordFrom([w[0]], w[1..], rest);
    assert [w[0]] + w[1..] == w;
  }

  lemma LexStr(s: string, rest: string)
    requires Quotable(s)
    ensures Lex(Ground, "\"" + s + "\"" + rest) == Cons(Str(s), Lex(Ground, rest))
  {
    var all := "\"" + s + "\"" + rest;
    assert all[0] == '"' && all[1..] == s + ("\"" + rest);
    LexStrFrom("", s, rest);
    assert "" + s == s;
  }

  lemma LexPunct(c: char, rest: string)
    requires IsPunct(c)
    ensures Lex(Ground, [c] + rest) == Cons(PunctToken(c), Lex(Ground, rest))
  {
    assert ([c] + rest)[1..] == rest;
  }

  lemma LexToken(t: Token, rest: string)
    requires t.Word? ==> Wordy(t.s) && (rest == "" || !IsWordChar(rest[0]))
    requires t.Str? ==> Quotable(t.s)
    ensures Lex(Ground, TokText(t) + rest) == Cons(t, Lex(Ground, rest))
  {
    match t
    case Word(s) => LexWord(s, rest);
    case Str(s) => LexStr(s, rest);
    case LBrace => LexPunct('{', rest);
    case RBrace => LexPunct('}', rest);
    case LBrack => LexPunct('[', rest);
    case RBrack => LexPunct(']', rest);
    case Colon => LexPunct(':', rest);
  }

  lemma {:induction false} LexText(ps: seq<Piece>)
    requires Printable(ps)
    ensures Lex(Ground, Text(ps)) == Some(Toks(ps))
  {
    if ps != [] {
      var p, more := ps[0], ps[1..];
      LexText(more);
      LexSeps(p.pad, Text(more));
      if p.tok.Word? {
        TextStart(ps);
      }
      LexToken(p.tok, p.pad + Text(more));
      assert [p.tok] + Toks(more) == Toks(ps);
    }
  }

  // What follows a word begins with a character no word has.
  lemma TextStart(ps: seq<Piece>)
    requires Printable(ps) && ps != [] && ps[0].tok.Word?
    ensures var rest := ps[0].pad + Text(ps[1..]); rest == "" || !IsWordChar(rest[0])
  {
    if ps[0].pad == "" {
      assert ps[0].pad + Text(ps[1..]) == Text(ps[1..]);
      assert Text(ps[1..])[0] == TokText(ps[1].tok)[0];
    }
  }

  // ---- parser ----

  datatype Doc = Leaf(tok: Token) | Map(entries: seq<Entry>) | List(items: seq<Doc>)
  datatype Entry = Entry(key: Token, colon: bool, value: Doc)

  predicate IsText(t: Token) {
    t.Word? || t.Str?
  }

  function DocToks(d: Doc): seq<Token>
    decreases d, 1
  {
    match d
    case Leaf(t) => [t]
    case Map(es) => [LBrace] + EntriesToks(es) + [RBrace]
    case List(ds) => [LBrack] + ItemsToks(ds) + [RBrack]
  }

  function EntryToks(e: Entry): seq<Token>
    decreases e, 1
  {
    [e.key] + (if e.colon then [Colon] else []) + DocToks(e.value)
  }

  function EntriesToks(es: seq<Entry>): seq<Token>
    decreases es, 0
  {
    if es == [] then [] else EntryToks(es[0]) + EntriesToks(es[1..])
  }

  function ItemsToks(ds: seq<Doc>): seq<Token>
    decreases ds, 0
  {
    if ds == [] then [] else DocToks(ds[0]) + ItemsToks(ds[1..])
  }

  predicate DocOk(d: Doc)
    decreases d, 1
  {
    match d
    case Leaf(t) => IsText(t)
    case Map(es) => EntriesOk(es)
    case List(ds) => ItemsOk(ds)
  }

  predicate EntriesOk(es: seq<Entry>)
    decreases es, 0
  {
    es == [] || (EntryOk(es[0]) && EntriesOk(es[1..]))
  }

  predicate EntryOk(e: Entry)
    decreases e, 1
  {
    IsText(e.key) && DocOk(e.value)
  }

  predicate ItemsOk(ds: seq<Doc>)
    decreases ds, 0
  {
    ds == [] || (DocOk(ds[0]) && ItemsOk(ds[1..]))
  }

  datatype Parsed<+T> = Bad | Good(value: T, rest: seq<Token>)

  function ParseValue(ts: seq<Token>): (r: Parsed<Doc>)
    ensures r.Good? ==> |r.rest| < |ts|
    decreases |ts|, 0
  {
    if ts == [] then Bad
    else
      match ts[0]
      case LBrace =>
        (match ParseEntries(ts[1..])
         case Bad => Bad
         case Good(es, rest) => Good(Map(es), rest))
      case LBrack =>
        (match ParseItems(ts[1..])
         case Bad => Bad
         case Good(ds, rest) => Good(List(ds), rest))
      case _ => if IsText(ts[0]) then Good(Leaf(ts[0]), ts[1..]) else Bad
  }

  function ParseEntry(ts: seq<Token>): (r: Parsed<Entry>)
    ensures r.Good? ==> |r.rest| < |ts|
    decreases |ts|, 1
  {
    if |ts| < 2 || !IsText(ts[0]) then Bad
    else
      var colon := ts[1].Colon?;
      match ParseValue(if colon then ts[2..] else ts[1..])
      case Bad => Bad
      case Good(d, rest) => Good(Entry(ts[0], colon, d), rest)
  }

  // Entries up to the closing brace.
  function ParseEntries(ts: seq<Token>): (r: Parsed<seq<Entry>>)
    ensures r.Good? ==> |r.rest| < |ts|
    decreases |ts|, 2
  {
    if ts == [] then Bad
    else if ts[0].RBrace? then Good([], ts[1..])
    else
      match ParseEntry(ts)
      case Bad => Bad
      case Good(e, rest) =>
        match ParseEntries(rest)
        case Bad => Bad
        case Good(es, rest') => Good([e] + es, rest')
  }

  function ParseItems(ts: seq<Token>): (r: Parsed<seq<Doc>>)
    ensures r.Good? ==> |r.rest| < |ts|
    decreases |ts|, 2
  {
    if ts == [] then Bad
    else if ts[0].RBrack? then Good([], ts[1..])
    else
      match ParseValue(ts)
      case Bad => Bad
      case Good(d, rest) =>
        match ParseItems(rest)
        case Bad => Bad
        case Good(ds, rest') => Good([d] + ds, rest')
  }

  // A whole file: entries to the end.
  function ParseFile(ts: seq<Token>): Option<seq<Entry>>
    decreases |ts|
  {
    if ts == [] then Some([])
    else
      match ParseEntry(ts)
      case Bad => None
      case Good(e, rest) =>
        match ParseFile(rest)
        case None => None
        case Some(es) => Some([e] + es)
  }

  lemma {:induction false} ValueRoundTrip(d: Doc, rest: seq<Token>)
    requires DocOk(d)
    ensures ParseValue(DocToks(d) + rest) == Good(d, rest)
    decreases d, 1
  {
    var ts := DocToks(d) + rest;
    match d
    case Leaf(t) =>
      assert ts[1..] == rest;
    case Map(es) =>
      EntriesRoundTrip(es, rest);
      assert ts[1..] == EntriesToks(es) + ([RBrace] + rest);
    case List(ds) =>
      ItemsRoundTrip(ds, rest);
      assert ts[1..] == ItemsToks(ds) + ([RBrack] + rest);
  }

  lemma {:induction false} EntryRoundTrip(e: Entry, rest: seq<Token>)
    requires EntryOk(e)
    ensures ParseEntry(EntryToks(e) + rest) == Good(e, rest)
    decreases e, 1
  {
    var ts := EntryToks(e) + rest;
    ValueRoundTrip(e.value, rest);
    DocStart(e.value);
    if e.colon {
      assert ts[2..] == DocToks(e.value) + rest;
    } else {
      assert ts[1..] == DocToks(e.value) + rest;
    }
  }

  lemma DocStart(d: Doc)
    requires DocOk(d)
    ensures |DocToks(d)| > 0 && !DocToks(d)[0].Colon? && !DocToks(d)[0].RBrace? && !DocToks(d)[0].RBrack?
  {
  }

  lemma {:induction false} EntriesRoundTrip(es: seq<Entry>, rest: seq<Token>)
    requires EntriesOk(es)
    ensures ParseEntries(EntriesToks(es) + ([RBrace] + rest)) == Good(es, rest)
    decreases es, 0
  {
    if es == [] {
      assert ([RBrace] + rest)[1..] == rest && EntriesToks(es) + ([RBrace] + rest) == [RBrace] + rest;
    } else {
      var tail := EntriesToks(es[1..]) + ([RBrace] + rest);
      EntryRoundTrip(es[0], tail);
      EntriesRoundTrip(es[1..], rest);
      Regroup(EntryToks(es[0]), EntriesToks(es[1..]), [RBrace] + rest);
      assert (EntryToks(es[0]) + tail)[0] == es[0].key;
      assert [es[0]] + es[1..] == es;
    }
  }

  lemma Regroup(a: seq<Token>, b: seq<Token>, c: seq<Token>)
    ensures (a + b) + c == a + (b + c)
  {
  }

  lemma ItemsStep(ts: seq<Token>, d: Doc, tail: seq<Token>, ds: seq<Doc>, rest: seq<Token>)
    requires ts != [] && !ts[0].RBrack? && ParseValue(ts) == Good(d, tail) && ParseItems(tail) == Good(ds, rest)
    ensures ParseItems(ts) == Good([d] + ds, rest)
  {
  }

  lemma {:induction false} ItemsRoundTrip(ds: seq<Doc>, rest: seq<Token>)
    requires ItemsOk(ds)
    ensures ParseItems(ItemsToks(ds) + ([RBrack] + rest)) == Good(ds, rest)
    decreases ds, 0
  {
    if ds == [] {
      assert ([RBrack] + rest)[1..] == rest && ItemsToks(ds) + ([RBrack] + rest) == [RBrack] + rest;
    } else {
      var tail := ItemsToks(ds[1..]) + ([RBrack] + rest);
      ValueRoundTrip(ds[0], tail);
      ItemsRoundTrip(ds[1..], rest);
      DocStart(ds[0]);
      var ts := DocToks(ds[0]) + tail;
      Regroup(DocToks(ds[0]), ItemsToks(ds[1..]), [RBrack] + rest);
      assert ts[0] == DocToks(ds[0])[0];
      ItemsStep(ts, ds[0], tail, ds[1..], rest);
      assert [ds[0]] + ds[1..] == ds;
    }
  }

  // Any document's tokens parse back to it.
  lemma {:induction false} FileRoundTrip(es: seq<Entry>)
    requires EntriesOk(es)
    ensures ParseFile(EntriesToks(es)) == Some(es)
  {
    if es != [] {
      EntryRoundTrip(es[0], EntriesToks(es[1..]));
      FileRoundTrip(es[1..]);
      assert [es[0]] + es[1..] == es;
    }
  }

  /** Printed text reads back as the document whose tokens it
      prints. */
  lemma TextReadsBack(ps: seq<Piece>, es: seq<Entry>)
    requires Printable(ps) && Toks(ps) == EntriesToks(es)
    requires EntriesOk(es)
    ensures Lex(Ground, Text(ps)) == Some(EntriesToks(es)) && ParseFile(EntriesToks(es)) == Some(es)
  {
    LexText(ps);
    FileRoundTrip(es);
  }

  lemma {:induction false} CommentSkipped(c: string, rest: string)
    requires '\n' !in c
    ensures Lex(InComment, c + ("\n" + rest)) == Lex(Ground, rest)
  {
    var t := c + ("\n" + rest);
    if c == "" {
      assert t == "\n" + rest && t[1..] == rest;
    } else {
      CommentSkipped(c[1..], rest);
      assert t[1..] == c[1..] + ("\n" + rest);
    }
  }
}

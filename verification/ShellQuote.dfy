/**
  Words printed for a POSIX shell: shellQuote, and the nats CLI flags
  printed with it, against a reader of the shell's own quoting rules.
 */
module ShellQuote {
  import opened Common

  predicate IsSafe(c: char) {
    'A' <= c <= 'Z' || 'a' <= c <= 'z' || '0' <= c <= '9' || c in "_@%+=:,./-"
  }

  // The regular expression shellSafe: one or more safe characters.
  predicate ShellSafe(s: string) {
    s != "" && forall i :: 0 <= i < |s| ==> IsSafe(s[i])
  }

  // strings.ReplaceAll(s, "'", `'\''`)
  function EscapeQuotes(s: string): string {
    if s == "" then ""
    else (if s[0] == '\'' then "'\\''" else [s[0]]) + EscapeQuotes(s[1..])
  }

  function Quote(s: string): string {
    if ShellSafe(s) then s else "'" + EscapeQuotes(s) + "'"
  }

  function QuoteAll(words: seq<string>): string {
    if words == [] then ""
    else if |words| == 1 then Quote(words[0])
    else QuoteAll(words[..|words| - 1]) + " " + Quote(words[|words| - 1])
  }

  // ---- the shell's side ----

  /** Where the reader is: between words, in a word outside quotes, in single quotes, or just
      after a backslash (XCU section 2.2 of POSIX.1-2017). */
  datatype Mode = Between | InWord | InQuotes | Escaped

  datatype Reading = Reading(mode: Mode, done: seq<string>, word: string)

  /** One character. Blanks end a word outside quotes; a single quote opens and closes
      quoting; inside, every character stands for itself; a backslash outside quotes takes the next
      character literally. Any other character outside quotes must be one the shell gives no meaning. */
  function ReadChar(r: Reading, c: char): Option<Reading> {
    match r.mode
    case InQuotes => Some(if c == '\'' then r.(mode := InWord) else r.(word := r.word + [c]))
    case Escaped => Some(r.(mode := InWord, word := r.word + [c]))
    case _ =>
      if c == ' ' || c == '\t' then
        Some(if r.mode.Between? then r else Reading(Between, r.done + [r.word], ""))
      else if c == '\'' then Some(r.(mode := InQuotes))
      else if c == '\\' then Some(r.(mode := Escaped))
      else if IsSafe(c) then Some(r.(mode := InWord, word := r.word + [c]))
      else None
  }

  function ReadFrom(r: Reading, s: string): Option<Reading>
    decreases |s|
  {
    if s == "" then Some(r)
    else
      match ReadChar(r, s[0])
      case None => None
      case Some(q) => ReadFrom(q, s[1..])
  }

  function Ended(r: Reading): Option<seq<string>> {
    match r.mode
    case Between => Some(r.done)
    case InWord => Some(r.done + [r.word])
    case _ => None
  }

  // The words a shell reads from a line, or None when it is unfinished or has an active character.
  function Words(line: string): Option<seq<string>> {
    match ReadFrom(Reading(Between, [], ""), line)
    case None => None
    case Some(r) => Ended(r)
  }

  lemma {:induction false} ReadJoin(r: Reading, s: string, t: string)
    ensures ReadFrom(r, s + t) ==
            match ReadFrom(r, s) { case None => None case Some(q) => ReadFrom(q, t) }
    decreases |s|
  {
    if s == "" {
      assert s + t == t;
    } else {
      assert (s + t)[1..] == s[1..] + t;
      match ReadChar(r, s[0])
      case None =>
      case Some(q) => ReadJoin(q, s[1..], t);
    }
  }

  lemma {:induction false} ReadSafe(r: Reading, s: string)
    requires (r.mode.Between? && r.word == "") || r.mode.InWord?
    requires forall i :: 0 <= i < |s| ==> IsSafe(s[i])
    ensures ReadFrom(r, s) == Some(if s == "" then r else Reading(InWord, r.done, r.word + s))
    decreases |s|
  {
    if s != "" {
      assert s[0] != ' ' && s[0] != '\t' && s[0] != '\'' && s[0] != '\\';
      assert s[1..] == "" ==> s == [s[0]];
      var q := Reading(InWord, r.done, r.word + [s[0]]);
      ReadSafe(q, s[1..]);
      assert r.word + [s[0]] + s[1..] == r.word + s;
    }
  }

  // The escape of a quote closes the quoting, gives the quote and opens it again.
  lemma ReadEscape(r: Reading)
    requires r.mode.InQuotes?
    ensures ReadFrom(r, "'\\''") == Some(r.(word := r.word + "'"))
  {
    var e := "'\\''";
    assert e[1..] == "\\''" && e[1..][1..] == "''" && e[1..][1..][1..] == "'" && e[1..][1..][1..][1..] == "";
    var r1 := r.(mode := InWord);
    var r2 := r1.(mode := Escaped);
    var r3 := r2.(mode := InWord, word := r.word + "'");
    assert ReadFrom(r3, "'") == Some(r3.(mode := InQuotes));
    assert ReadFrom(r2, "''") == ReadFrom(r3, "'");
    assert ReadFrom(r1, "\\''") == ReadFrom(r2, "''");
  }

  lemma {:induction false} ReadEscaped(r: Reading, s: string)
    requires r.mode.InQuotes?
    ensures ReadFrom(r, EscapeQuotes(s)) == Some(r.(word := r.word + s))
    decreases |s|
  {
    if s == "" {
      assert r.word + s == r.word;
    } else {
      var head := if s[0] == '\'' then "'\\''" else [s[0]];
      var q := r.(word := r.word + [s[0]]);
      ReadJoin(r, head, EscapeQuotes(s[1..]));
      if s[0] == '\'' {
        ReadEscape(r);
      } else {
        assert [s[0]][1..] == "";
        assert ReadFrom(q, "") == Some(q);
      }
      ReadEscaped(q, s[1..]);
      assert r.word + [s[0]] + s[1..] == r.word + s;
    }
  }

  // One more character read.
  lemma ReadOne(r: Reading, c: char, rest: string, q: Reading)
    requires ReadChar(r, c) == Some(q)
    ensures ReadFrom(r, [c] + rest) == ReadFrom(q, rest)
  {
    assert ([c] + rest)[0] == c && ([c] + rest)[1..] == rest;
  }

  lemma ReadEscapedWord(done: seq<string>, s: string)
    ensures ReadFrom(Reading(InQuotes, done, ""), EscapeQuotes(s)) == Some(Reading(InQuotes, done, s))
  {
    ReadEscaped(Reading(InQuotes, done, ""), s);
    assert "" + s == s;
  }

  lemma ReadBetweenQuotes(done: seq<string>, s: string)
    ensures ReadFrom(Reading(Between, done, ""), "'" + EscapeQuotes(s) + "'") == Some(Reading(InWord, done, s))
  {
    var body, q, e := EscapeQuotes(s), Reading(InQuotes, done, ""), Reading(InQuotes, done, s);
    assert "'" + body + "'" == ['\''] + (body + "'");
    ReadOne(Reading(Between, done, ""), '\'', body + "'", q);
    ReadJoin(q, body, "'");
    ReadEscapedWord(done, s);
    assert "'" == ['\''] + "";
    ReadOne(e, '\'', "", Reading(InWord, done, s));
  }

  // Reading a quoted word leaves the reader at its end, with exactly the word read.
  lemma ReadQuoted(done: seq<string>, s: string)
    ensures ReadFrom(Reading(Between, done, ""), Quote(s)) == Some(Reading(InWord, done, s))
  {
    if ShellSafe(s) {
      ReadSafe(Reading(Between, done, ""), s);
      assert "" + s == s;
    } else {
      ReadBetweenQuotes(done, s);
    }
  }

  // The line so far ends in the last of these words.
  ghost predicate ReadsTo(line: string, words: seq<string>) {
    if words == [] then line == ""
    else ReadFrom(Reading(Between, [], ""), line) == Some(Reading(InWord, words[..|words| - 1], words[|words| - 1]))
  }

  lemma ReadsToWords(line: string, words: seq<string>)
    requires ReadsTo(line, words)
    ensures Words(line) == Some(words)
  {
    if words != [] {
      assert words[..|words| - 1] + [words[|words| - 1]] == words;
    }
  }

  lemma NextWord(line: string, words: seq<string>, w: string)
    requires ReadsTo(line, words)
    ensures ReadsTo(line + " " + Quote(w), words + [w])
  {
    var r, more := Reading(Between, [], ""), " " + Quote(w);
    assert line + " " + Quote(w) == line + more;
    assert (words + [w])[..|words|] == words;
    assert more[1..] == Quote(w);
    ReadJoin(r, line, more);
    ReadQuoted(words, w);
    if words != [] {
      assert words[..|words| - 1] + [words[|words| - 1]] == words;
    }
  }

  lemma {:induction false} AllWords(words: seq<string>)
    ensures ReadsTo(QuoteAll(words), words)
  {
    if |words| == 1 {
      ReadQuoted([], words[0]);
      assert words[..0] == [];
    } else if |words| > 1 {
      var n := |words| - 1;
      AllWords(words[..n]);
      NextWord(QuoteAll(words[..n]), words[..n], words[n]);
      assert words[..n] + [words[n]] == words;
    }
  }

  /** Quoting round trip: any list of strings, printed word by word and joined with spaces, is
      read back by the shell as exactly that list. */
  lemma QuotedWordsReadBack(words: seq<string>)
    ensures Words(QuoteAll(words)) == Some(words)
  {
    AllWords(words);
    ReadsToWords(QuoteAll(words), words);
  }

  // ---- natsCLIConnFlags ----

  // A flag and the value configured for it, "" when there is none.
  datatype Flag = Flag(name: string, value: string)

  // What the nats CLI is meant to receive: each flag that has a value, then the value.
  function FlagWords(flags: seq<Flag>): seq<string> {
    if flags == [] then []
    else (if flags[0].value == "" then [] else [flags[0].name, flags[0].value]) + FlagWords(flags[1..])
  }

  lemma {:induction false} FlagWordsLast(flags: seq<Flag>, n: nat)
    requires n < |flags|
    ensures FlagWords(flags[..n + 1]) ==
            FlagWords(flags[..n]) + if flags[n].value == "" then [] else [flags[n].name, flags[n].value]
  {
    if n == 0 {
      assert flags[..1] == [flags[0]];
    } else {
      FlagWordsLast(flags[1..], n - 1);
      assert flags[..n + 1][1..] == flags[1..][..n] && flags[..n][1..] == flags[1..][..n - 1];
    }
  }

  // One call of add: nothing for a flag without a value, otherwise two more words.
  lemma FlagAdded(b: string, flags: seq<Flag>, n: nat)
    requires n < |flags| && ShellSafe(flags[n].name) && ReadsTo(b, FlagWords(flags[..n]))
    ensures flags[n].value == "" ==> ReadsTo(b, FlagWords(flags[..n + 1]))
    ensures flags[n].value != "" ==>
              ReadsTo(b + " " + flags[n].name + " " + Quote(flags[n].value), FlagWords(flags[..n + 1]))
  {
    var f, words := flags[n], FlagWords(flags[..n]);
    FlagWordsLast(flags, n);
    if f.value == "" {
      assert words + [] == words;
    } else {
      NextWord(b, words, f.name);
      NextWord(b + " " + f.name, words + [f.name], f.value);
      assert words + [f.name] + [f.value] == words + [f.name, f.value];
    }
  }

  /** The connection flags, each with a leading space: a shell passes the CLI exactly the flags
      that have a value, with their values, whatever characters those contain. */
  method ConnFlags(flags: seq<Flag>) returns (b: string)
    requires forall i :: 0 <= i < |flags| ==> ShellSafe(flags[i].name)
    ensures Words(b) == Some(FlagWords(flags))
  {
    b := "";
    for i := 0 to |flags|
      invariant ReadsTo(b, FlagWords(flags[..i]))
    {
      FlagAdded(b, flags, i);
      if flags[i].value != "" {
        b := b + " " + flags[i].name + " " + Quote(flags[i].value);
      }
    }
    assert flags[..|flags|] == flags;
    ReadsToWords(b, FlagWords(flags));
  }

  // The connection settings of an external broker, its URLs joined with credentials taken out.
  datatype External = External(urls: string, nkeySeedFile: string, credsFile: string, caFile: string, certFile: string,
                               keyFile: string)

  function ExternalFlags(ex: External): seq<Flag> {
    [Flag("--server", ex.urls), Flag("--nkey", ex.nkeySeedFile), Flag("--creds", ex.credsFile),
     Flag("--tlsca", ex.caFile), Flag("--tlscert", ex.certFile), Flag("--tlskey", ex.keyFile)]
  }

  lemma FlagNamesSafe(ex: External)
    ensures forall i :: 0 <= i < |ExternalFlags(ex)| ==> ShellSafe(ExternalFlags(ex)[i].name)
  {
  }

  // natsCLIConnFlags: the six settings, in their order.
  method ExternalConnFlags(ex: External) returns (b: string)
    ensures Words(b) == Some(FlagWords(ExternalFlags(ex)))
  {
    FlagNamesSafe(ex);
    b := ConnFlags(ExternalFlags(ex));
  }

  // Letters and digits, by their ASCII codes, and ten marks: a POSIX shell takes these literally.
  predicate Literal(c: char) {
    var n := c as int;
    48 <= n <= 57 || 65 <= n <= 90 || 97 <= n <= 122 || c in ['_', '@', '%', '+', '=', ':', ',', '.', '/', '-']
  }

  /** Only words that need it are quoted: what prints as it is are exactly the words of characters a
      POSIX shell takes literally. */
  lemma BareIff(s: string)
    ensures Quote(s) == s <==> s != "" && forall i :: 0 <= i < |s| ==> Literal(s[i])
  {
    forall i | 0 <= i < |s| ensures IsSafe(s[i]) <==> Literal(s[i]) {
    }
    EscapesGrow(s);
  }

  lemma {:induction false} EscapesGrow(s: string)
    ensures |EscapeQuotes(s)| >= |s|
  {
    if s != "" {
      EscapesGrow(s[1..]);
    }
  }
}

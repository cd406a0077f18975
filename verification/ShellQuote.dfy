/** The scripts of the file tools (metaharness/tools/files.go), read back as a shell reads them: the
    token recognition and quoting of the POSIX Shell Command Language (sections 2.2 and 2.3), for
    the part of it that these scripts use, and what the commands in them do. */
module ShellQuote {
  import opened Wrappers

  // ---------------------------------------------------------------- what is printed

  /** s with each single quote closed, escaped and reopened. */
  function Escaped(s: string): string {
    if s == "" then ""
    else (if s[0] == '\'' then "'\\''" else [s[0]]) + Escaped(s[1..])
  }

  function Quote(s: string): string {
    "'" + Escaped(s) + "'"
  }

  function CatScript(path: string): string {
    "cat -- " + Quote(path)
  }

  /** Content goes in encoded. */
  function PutScript(path: string, encoded: string): string {
    "mkdir -p -- \"$(dirname -- " + Quote(path) + ")\" && printf %s " + Quote(encoded) + " | base64 -d > " + Quote(path)
  }

  // ---------------------------------------------------------------- what a shell reads

  /** A piece of a word: a literal character, or a command substitution in double quotes. */
  datatype Piece = Lit(c: char) | Sub(cmd: seq<Token>)

  datatype Token = Word(pieces: seq<Piece>) | Op(op: string)

  predicate IsBlank(c: char) {
    c == ' ' || c == '\t'
  }

  /** Ends a word when it is not quoted. */
  predicate IsDelimiter(c: char) {
    IsBlank(c) || c == '\n' || c == '|' || c == '&' || c == ';' || c == '<' || c == '>' || c == '(' || c == ')'
  }

  /** The characters that these scripts use without quotes; each stands for itself in a word. */
  predicate IsOrdinary(c: char) {
    'a' <= c <= 'z' || 'A' <= c <= 'Z' || '0' <= c <= '9' || c == '-' || c == '_' || c == '.' || c == '/' || c == '%'
  }

  function Lits(s: string): seq<Piece> {
    if s == "" then [] else [Lit(s[0])] + Lits(s[1..])
  }

  /** The text up to the closing single quote, and what follows it. */
  function Single(s: string): (r: Option<(string, string)>)
    ensures r.Some? ==> |r.value.1| < |s|
  {
    if s == "" then None
    else if s[0] == '\'' then Some(("", s[1..]))
    else
      match Single(s[1..])
      case None => None
      case Some((text, rest)) => Some(([s[0]] + text, rest))
  }

  function Prefixed(pieces: seq<Piece>, r: Option<(seq<Piece>, string)>): Option<(seq<Piece>, string)> {
    if r.None? then None else Some((pieces + r.value.0, r.value.1))
  }

  /** The pieces of the word that s begins with, and what follows it. None: s uses something these
      scripts do not. */
  function Plain(s: string): (r: Option<(seq<Piece>, string)>)
    ensures r.Some? ==> |r.value.1| <= |s|
    ensures r.Some? && s != "" && !IsDelimiter(s[0]) ==> |r.value.1| < |s|
    decreases |s|, 0
  {
    if s == "" || IsDelimiter(s[0]) then Some(([], s))
    else if s[0] == '\'' then
      match Single(s[1..])
      case None => None
      case Some((text, rest)) => Prefixed(Lits(text), Plain(rest))
    else if s[0] == '"' then
      match Double(s[1..])
      case None => None
      case Some((pieces, rest)) => Prefixed(pieces, Plain(rest))
    else if s[0] == '\\' then
      if |s| == 1 then None
      else if s[1] == '\n' then Plain(s[2..])
      else Prefixed([Lit(s[1])], Plain(s[2..]))
    else if IsOrdinary(s[0]) then Prefixed([Lit(s[0])], Plain(s[1..]))
    else None
  }

  /** The pieces up to the closing double quote, and what follows it. */
  function Double(s: string): (r: Option<(seq<Piece>, string)>)
    ensures r.Some? ==> |r.value.1| < |s|
    decreases |s|, 0
  {
    if s == "" then None
    else if s[0] == '"' then Some(([], s[1..]))
    else if s[0] == '$' then
      if |s| == 1 || s[1] != '(' then None
      else
        match Tokens(s[2..])
        case None => None
        case Some((cmd, rest)) => if rest == "" then None else Prefixed([Sub(cmd)], Double(rest[1..]))
    else if s[0] == '\\' then
      if |s| == 1 then None
      else if s[1] == '\n' then Double(s[2..])
      else if (s[1] == '$' || s[1] == '`' || s[1] == '"' || s[1] == '\\') then Prefixed([Lit(s[1])], Double(s[2..]))
      else Prefixed([Lit('\\')], Double(s[1..]))
    else if s[0] == '`' then None
    else Prefixed([Lit(s[0])], Double(s[1..]))
  }

  function Listed(t: Token, r: Option<(seq<Token>, string)>): Option<(seq<Token>, string)> {
    if r.None? then None else Some(([t] + r.value.0, r.value.1))
  }

  /** The tokens up to the end or an unquoted closing parenthesis, and what is left from there. */
  function Tokens(s: string): (r: Option<(seq<Token>, string)>)
    ensures r.Some? ==> |r.value.1| <= |s|
    decreases |s|, 1
  {
    if s == "" || s[0] == ')' then Some(([], s))
    else if IsBlank(s[0]) then Tokens(s[1..])
    else if s[0] == '|' then Listed(Op("|"), Tokens(s[1..]))
    else if s[0] == '>' then Listed(Op(">"), Tokens(s[1..]))
    else if s[0] == '&' && |s| > 1 && s[1] == '&' then Listed(Op("&&"), Tokens(s[2..]))
    else if IsDelimiter(s[0]) then None
    else
      match Plain(s)
      case None => None
      case Some((pieces, rest)) => Listed(Word(pieces), Tokens(rest))
  }

  // ---------------------------------------------------------------- quoting round trip

  lemma PrefixedTwice(a: seq<Piece>, b: seq<Piece>, r: Option<(seq<Piece>, string)>)
    ensures Prefixed(a, Prefixed(b, r)) == Prefixed(a + b, r)
  {
    if r.Some? {
      assert a + (b + r.value.0) == a + b + r.value.0;
    }
  }

  lemma PrefixedNothing(r: Option<(seq<Piece>, string)>)
    ensures Prefixed([], r) == r
  {
    if r.Some? {
      assert [] + r.value.0 == r.value.0;
    }
  }

  /** A character that is no quote only makes the quoted text one longer. */
  lemma QuotedChar(c: char, body: string)
    requires c != '\''
    ensures Plain("'" + [c] + body) == Prefixed([Lit(c)], Plain("'" + body))
  {
    assert ("'" + [c] + body)[1..] == [c] + body && ([c] + body)[1..] == body && ("'" + body)[1..] == body;
    if Single(body).Some? {
      var (text, rest) := Single(body).value;
      assert ([c] + text)[1..] == text;
      PrefixedTwice([Lit(c)], Lits(text), Plain(rest));
    }
  }

  /** An escaped quote closes the quoted text, stands for itself, and opens another. */
  lemma QuotedQuote(body: string)
    ensures Plain("''\\''" + body) == Prefixed([Lit('\'')], Plain("'" + body))
  {
    var text := "''\\''" + body;
    assert text[1..][1..] == "\\''" + body;
    assert Single(text[1..]) == Some(("", "\\''" + body));
    assert ("\\''" + body)[2..] == "'" + body;
    PrefixedNothing(Plain("\\''" + body));
  }

  /** Whatever s is, and whatever comes after it, the shell reads a quoted s as s. */
  lemma {:induction false} QuoteReads(s: string, rest: string)
    ensures Plain(Quote(s) + rest) == Prefixed(Lits(s), Plain(rest))
  {
    if s == "" {
      assert (Quote(s) + rest)[1..][1..] == rest;
      assert Single((Quote(s) + rest)[1..]) == Some(("", rest));
    } else {
      QuoteReads(s[1..], rest);
      QuoteUnfolds(s, rest);
      var body := Escaped(s[1..]) + "'" + rest;
      if s[0] == '\'' {
        QuotedQuote(body);
      } else {
        QuotedChar(s[0], body);
      }
      PrefixedTwice([Lit(s[0])], Lits(s[1..]), Plain(rest));
    }
  }

  lemma QuoteUnfolds(s: string, rest: string)
    requires s != ""
    ensures var body := Escaped(s[1..]) + "'" + rest;
            && Quote(s[1..]) + rest == "'" + body
            && Quote(s) + rest == if s[0] == '\'' then "''\\''" + body else "'" + [s[0]] + body
  {
    var first := if s[0] == '\'' then "'\\''" else [s[0]];
    assert "'" + "'\\''" == "''\\''";
    Opened(first, Escaped(s[1..]), rest);
    Opened("", Escaped(s[1..]), rest);
    assert "" + Escaped(s[1..]) == Escaped(s[1..]) && "'" + "" == "'";
  }

  lemma Opened(first: string, escaped: string, rest: string)
    ensures "'" + (first + escaped) + "'" + rest == "'" + first + (escaped + "'" + rest)
  {
    assert "'" + (first + escaped) == "'" + first + escaped;
    assert "'" + first + escaped + "'" + rest == "'" + first + (escaped + "'") + rest;
  }

  lemma {:induction false} OrdinaryReads(w: string, rest: string)
    requires forall i :: 0 <= i < |w| ==> IsOrdinary(w[i])
    ensures Plain(w + rest) == Prefixed(Lits(w), Plain(rest))
  {
    if w == "" {
      assert "" + rest == rest;
      PrefixedNothing(Plain(rest));
    } else {
      assert (w + rest)[1..] == w[1..] + rest;
      OrdinaryReads(w[1..], rest);
      PrefixedTwice([Lit(w[0])], Lits(w[1..]), Plain(rest));
    }
  }

  predicate AtEnd(rest: string) {
    rest == "" || IsDelimiter(rest[0])
  }

  /** In any context that delimits words, the quoted s is one word, equal to s. */
  lemma QuotedWord(s: string, rest: string)
    requires AtEnd(rest)
    ensures Tokens(Quote(s) + rest) == Listed(Word(Lits(s)), Tokens(rest))
  {
    QuoteReads(s, rest);
    assert Lits(s) + [] == Lits(s);
  }

  lemma OrdinaryWord(w: string, rest: string)
    requires w != "" && AtEnd(rest) && forall i :: 0 <= i < |w| ==> IsOrdinary(w[i])
    ensures Tokens(w + rest) == Listed(Word(Lits(w)), Tokens(rest))
  {
    OrdinaryReads(w, rest);
    assert Lits(w) + [] == Lits(w);
  }

  // ---------------------------------------------------------------- scripts

  /** A unit of a script: an ordinary word, a quoted one, an operator, or a command in a command
      substitution in double quotes. */
  datatype Unit = Ordinary(w: string) | Quoted(q: string) | Operator(op: string) | Substitution(cmd: seq<Unit>)

  predicate IsWord(u: Unit) {
    u.Ordinary? || u.Quoted? || u.Substitution?
  }

  predicate Printable(u: Unit)
    decreases u
  {
    match u
    case Ordinary(w) => w != "" && forall i :: 0 <= i < |w| ==> IsOrdinary(w[i])
    case Quoted(_) => true
    case Operator(op) => op == "|" || op == ">" || op == "&&"
    case Substitution(cmd) => AllPrintable(cmd)
  }

  predicate AllPrintable(units: seq<Unit>)
    decreases units
  {
    units != [] && (forall i :: 0 <= i < |units| ==> Printable(units[i])) && IsWord(units[|units| - 1])
  }

  function Printed(u: Unit): string
    decreases u
  {
    match u
    case Ordinary(w) => w
    case Quoted(q) => Quote(q)
    case Operator(op) => op
    case Substitution(cmd) => "\"$(" + Script(cmd) + ")\""
  }

  /** The units with blanks between them. */
  function Script(units: seq<Unit>): string
    decreases units
  {
    if units == [] then ""
    else if |units| == 1 then Printed(units[0])
    else Printed(units[0]) + " " + Script(units[1..])
  }

  function Meant(u: Unit): Token
    decreases u
  {
    match u
    case Ordinary(w) => Word(Lits(w))
    case Quoted(q) => Word(Lits(q))
    case Operator(op) => Op(op)
    case Substitution(cmd) => Word([Sub(AllMeant(cmd))])
  }

  function AllMeant(units: seq<Unit>): seq<Token>
    decreases units
  {
    if units == [] then [] else [Meant(units[0])] + AllMeant(units[1..])
  }

  lemma BlankThen(s: string)
    ensures Tokens(" " + s) == Tokens(s)
  {
    assert (" " + s)[1..] == s;
  }

  /** The shell reads a printed word where it ends. */
  lemma {:induction false} WordReads(u: Unit, rest: string)
    requires Printable(u) && IsWord(u) && AtEnd(rest)
    ensures Tokens(Printed(u) + rest) == Listed(Meant(u), Tokens(rest))
    decreases u
  {
    match u
    case Ordinary(w) => OrdinaryWord(w, rest);
    case Quoted(q) => QuotedWord(q, rest);
    case Substitution(cmd) =>
      ScriptReads(cmd, ")\"" + rest);
      SubstitutionReads(Script(cmd), AllMeant(cmd), rest);
  }

  lemma DoubleReads(inner: string, cmd: seq<Token>, rest: string)
    requires Tokens(inner) == Some((cmd, ")\"" + rest))
    ensures Double("$(" + inner) == Some(([Sub(cmd)], rest))
  {
    var after := ")\"" + rest;
    assert ("$(" + inner)[2..] == inner;
    assert after[1..] == "\"" + rest && ("\"" + rest)[1..] == rest;
    assert Double(after[1..]) == Some(([], rest));
    assert [Sub(cmd)] + [] == [Sub(cmd)];
  }

  lemma SubstitutionReads(script: string, cmd: seq<Token>, rest: string)
    requires Tokens(script + (")\"" + rest)) == Some((cmd, ")\"" + rest)) && AtEnd(rest)
    ensures Tokens("\"$(" + script + ")\"" + rest) == Listed(Word([Sub(cmd)]), Tokens(rest))
  {
    var after := ")\"" + rest;
    var text := "\"$(" + script + ")\"" + rest;
    assert text[1..] == "$(" + (script + after);
    DoubleReads(script + after, cmd, rest);
    assert Plain(rest) == Some(([], rest));
    assert Plain(text) == Some(([Sub(cmd)], rest));
  }

  lemma OperatorReads(op: string, rest: string)
    requires op == "|" || op == ">" || op == "&&"
    ensures Tokens(op + rest) == Listed(Op(op), Tokens(rest))
  {
    assert (op + rest)[|op|..] == rest;
  }

  /** Any script is read as the tokens its units mean, up to its end or the parenthesis around it. */
  lemma {:induction false} ScriptReads(units: seq<Unit>, rest: string)
    requires AllPrintable(units) && (rest == "" || rest[0] == ')')
    ensures Tokens(Script(units) + rest) == Some((AllMeant(units), rest))
    decreases units
  {
    var u, more := units[0], units[1..];
    assert Printable(u);
    if more == [] {
      WordReads(u, rest);
      assert AllMeant(units) == [Meant(u)] + [];
    } else {
      ScriptReads(more, rest);
      var s := Script(more) + rest;
      assert Script(units) + rest == Printed(u) + (" " + s);
      if u.Operator? {
        OperatorReads(u.op, " " + s);
      } else {
        WordReads(u, " " + s);
      }
      BlankThen(s);
    }
  }

  // ---------------------------------------------------------------- what the commands do

  /** Directories that exist, and files with their content, by path. */
  datatype Fs = Fs(dirs: set<string>, files: map<string, string>)

  datatype Out = Out(fs: Fs, text: string, ok: bool)

  /** How base64 -d reads its input; None if it cannot. */
  type Decoder = string -> Option<string>

  function StripLast(s: string, c: char): string {
    if s != "" && s[|s| - 1] == c then StripLast(s[..|s| - 1], c) else s
  }

  /** The path up to its last slash. */
  function UpToSlash(s: string): string {
    if s == "" || s[|s| - 1] == '/' then s else UpToSlash(s[..|s| - 1])
  }

  function Dirname(path: string): string {
    if path == "" then "."
    else
      var name := StripLast(path, '/');
      if name == "" then "/"
      else
        var dir := UpToSlash(name);
        if dir == "" then "." else if StripLast(dir, '/') == "" then "/" else StripLast(dir, '/')
  }

  /** The directory the script makes: a command substitution drops the newlines its output ends in. */
  function MadeDir(path: string): string {
    StripLast(Dirname(path), '\n')
  }

  function Substituted(argv: seq<string>): Option<string> {
    if |argv| == 3 && argv[0] == "dirname" && argv[1] == "--" then Some(MadeDir(argv[2])) else None
  }

  /** A word after expansion. */
  function Expanded(pieces: seq<Piece>): Option<string>
    decreases pieces
  {
    if pieces == [] then Some("")
    else
      var first := match pieces[0]
        case Lit(c) => Some([c])
        case Sub(cmd) => match Args(cmd)
          case None => None
          case Some(argv) => Substituted(argv);
      var rest := Expanded(pieces[1..]);
      if first.None? || rest.None? then None else Some(first.value + rest.value)
  }

  function Args(tokens: seq<Token>): Option<seq<string>>
    decreases tokens
  {
    if tokens == [] then Some([])
    else if tokens[0].Op? then None
    else
      var first := Expanded(tokens[0].pieces);
      var rest := Args(tokens[1..]);
      if first.None? || rest.None? then None else Some([first.value] + rest.value)
  }

  /** A file can be written where no directory is, in a directory that exists. */
  predicate CanWrite(fs: Fs, path: string) {
    path != "" && path[|path| - 1] != '/' && path !in fs.dirs && Dirname(path) in fs.dirs
  }

  function Simple(argv: seq<string>, input: string, fs: Fs, dec: Decoder): Out {
    if |argv| == 4 && argv[..3] == ["mkdir", "-p", "--"] then
      if argv[3] == "" || argv[3] in fs.files then Out(fs, "", false) else Out(fs.(dirs := fs.dirs + {argv[3]}), "", true)
    else if |argv| == 3 && argv[..2] == ["printf", "%s"] then Out(fs, argv[2], true)
    else if argv == ["base64", "-d"] then
      match dec(input)
      case None => Out(fs, "", false)
      case Some(text) => Out(fs, text, true)
    else if |argv| == 3 && argv[..2] == ["cat", "--"] then
      if argv[2] == "-" then Out(fs, input, true)
      else if argv[2] in fs.files then Out(fs, fs.files[argv[2]], true)
      else Out(fs, "", false)
    else Out(fs, "", false)
  }

  /** A command, with its output written to a file if it is redirected. */
  function Command(tokens: seq<Token>, input: string, fs: Fs, dec: Decoder): Out {
    var n := |tokens|;
    if n >= 2 && tokens[n - 2] == Op(">") then
      match (Args(tokens[..n - 2]), Args(tokens[n - 1..]))
      case (Some(argv), Some(target)) =>
        if |target| == 1 && CanWrite(fs, target[0]) then
          var out := Simple(argv, input, fs, dec);
          Out(out.fs.(files := out.fs.files[target[0] := out.text]), "", out.ok)
        else Out(fs, "", false)
      case _ => Out(fs, "", false)
    else
      match Args(tokens)
      case None => Out(fs, "", false)
      case Some(argv) => Simple(argv, input, fs, dec)
  }

  function SplitBy(tokens: seq<Token>, op: string): (r: seq<seq<Token>>)
    ensures r != []
  {
    if tokens == [] then [[]]
    else
      var rest := SplitBy(tokens[1..], op);
      if tokens[0] == Op(op) then [[]] + rest else [[tokens[0]] + rest[0]] + rest[1..]
  }

  /** Commands of a pipeline, each reading what the one before it printed. */
  function Pipeline(cmds: seq<seq<Token>>, input: string, fs: Fs, dec: Decoder): Out {
    if cmds == [] then Out(fs, input, true)
    else
      var out := Command(cmds[0], input, fs, dec);
      if |cmds| == 1 then out else Pipeline(cmds[1..], out.text, out.fs, dec)
  }

  /** Pipelines joined by &&: each runs if all before it succeeded. */
  function AndList(pipes: seq<seq<Token>>, fs: Fs, dec: Decoder): Out {
    if pipes == [] then Out(fs, "", true)
    else
      var out := Pipeline(SplitBy(pipes[0], "|"), "", fs, dec);
      if !out.ok then out
      else
        var rest := AndList(pipes[1..], out.fs, dec);
        Out(rest.fs, out.text + rest.text, rest.ok)
  }

  /** What bash -c does with a script; nothing is on its standard input. */
  function Bash(script: string, fs: Fs, dec: Decoder): Out {
    match Tokens(script)
    case Some((tokens, "")) => AndList(SplitBy(tokens, "&&"), fs, dec)
    case _ => Out(fs, "", false)
  }

  // ---------------------------------------------------------------- the scripts of the tools

  function CatUnits(path: string): seq<Unit> {
    [Ordinary("cat"), Ordinary("--"), Quoted(path)]
  }

  function DirUnits(path: string): seq<Unit> {
    [Ordinary("dirname"), Ordinary("--"), Quoted(path)]
  }

  function MakeUnits(path: string): seq<Unit> {
    [Ordinary("mkdir"), Ordinary("-p"), Ordinary("--"), Substitution(DirUnits(path))]
  }

  function PrintUnits(encoded: string): seq<Unit> {
    [Ordinary("printf"), Ordinary("%s"), Quoted(encoded)]
  }

  function DecodeUnits(path: string): seq<Unit> {
    [Ordinary("base64"), Ordinary("-d"), Operator(">"), Quoted(path)]
  }

  function PutUnits(path: string, encoded: string): seq<Unit> {
    MakeUnits(path) + [Operator("&&")] + (PrintUnits(encoded) + [Operator("|")] + DecodeUnits(path))
  }

  lemma {:induction false} ScriptJoins(a: seq<Unit>, b: seq<Unit>)
    requires a != [] && b != []
    ensures Script(a + b) == Script(a) + " " + Script(b)
  {
    assert (a + b)[1..] == a[1..] + b;
    if |a| > 1 {
      ScriptJoins(a[1..], b);
    }
  }

  lemma {:induction false} MeantJoins(a: seq<Unit>, b: seq<Unit>)
    ensures AllMeant(a + b) == AllMeant(a) + AllMeant(b)
  {
    if a == [] {
      assert a + b == b;
    } else {
      assert (a + b)[1..] == a[1..] + b;
      MeantJoins(a[1..], b);
    }
  }

  lemma {:induction false} SplitOnce(a: seq<Token>, b: seq<Token>, op: string)
    requires forall i :: 0 <= i < |a| ==> a[i] != Op(op)
    ensures SplitBy(a + [Op(op)] + b, op) == [a] + SplitBy(b, op)
    ensures SplitBy(a, op) == [a]
  {
    if a == [] {
      assert a + [Op(op)] + b == [Op(op)] + b;
    } else {
      assert (a + [Op(op)] + b)[1..] == a[1..] + [Op(op)] + b;
      SplitOnce(a[1..], b, op);
      assert [a[0]] + a[1..] == a;
    }
  }

  lemma {:induction false} LitsExpand(s: string)
    ensures Expanded(Lits(s)) == Some(s)
  {
    if s != "" {
      assert Lits(s)[1..] == Lits(s[1..]);
      LitsExpand(s[1..]);
      assert [s[0]] + s[1..] == s;
    }
  }

  /** What a unit expands to, if it is a word. */
  function Value(u: Unit): Option<string>
    decreases u
  {
    match u
    case Ordinary(w) => Some(w)
    case Quoted(q) => Some(q)
    case Operator(_) => None
    case Substitution(cmd) =>
      match Values(cmd)
      case None => None
      case Some(argv) => Substituted(argv)
  }

  function Values(units: seq<Unit>): Option<seq<string>>
    decreases units
  {
    if units == [] then Some([])
    else if Value(units[0]).None? || Values(units[1..]).None? then None
    else Some([Value(units[0]).value] + Values(units[1..]).value)
  }

  lemma {:induction false} UnitExpands(u: Unit)
    requires Value(u).Some?
    ensures Meant(u).Word? && Expanded(Meant(u).pieces) == Value(u)
    decreases u
  {
    match u
    case Ordinary(w) => LitsExpand(w);
    case Quoted(q) => LitsExpand(q);
    case Substitution(cmd) =>
      AllExpand(cmd);
      var pieces := [Sub(AllMeant(cmd))];
      assert pieces[1..] == [];
      assert Value(u).value + "" == Value(u).value;
  }

  /** Words expand to what they were printed for. */
  lemma {:induction false} AllExpand(units: seq<Unit>)
    requires Values(units).Some?
    ensures Args(AllMeant(units)) == Values(units)
    decreases units
  {
    if units != [] {
      UnitExpands(units[0]);
      AllExpand(units[1..]);
      assert AllMeant(units)[1..] == AllMeant(units[1..]);
    }
  }

  lemma CommandOf(units: seq<Unit>, input: string, fs: Fs, dec: Decoder)
    requires Values(units).Some?
    requires forall i :: 0 <= i < |units| ==> IsWord(units[i])
    ensures Command(AllMeant(units), input, fs, dec) == Simple(Values(units).value, input, fs, dec)
  {
    AllExpand(units);
    MeantAt(units);
    NotRedirected(AllMeant(units), input, fs, dec);
  }

  lemma NotRedirected(tokens: seq<Token>, input: string, fs: Fs, dec: Decoder)
    requires Args(tokens).Some? && forall i :: 0 <= i < |tokens| ==> tokens[i].Word?
    ensures Command(tokens, input, fs, dec) == Simple(Args(tokens).value, input, fs, dec)
  {
  }

  lemma {:induction false} MeantAt(units: seq<Unit>)
    ensures |AllMeant(units)| == |units| && forall i :: 0 <= i < |units| ==> AllMeant(units)[i] == Meant(units[i])
  {
    if units != [] {
      MeantAt(units[1..]);
    }
  }

  lemma Redirected(words: seq<Token>, target: seq<Piece>, path: string, input: string, fs: Fs, dec: Decoder)
    requires Args(words).Some? && Expanded(target) == Some(path)
    ensures Command(words + [Op(">"), Word(target)], input, fs, dec)
            == if CanWrite(fs, path) then
                 var out := Simple(Args(words).value, input, fs, dec);
                 Out(out.fs.(files := out.fs.files[path := out.text]), "", out.ok)
               else Out(fs, "", false)
  {
    var tokens := words + [Op(">"), Word(target)];
    assert tokens[..|tokens| - 2] == words && tokens[|tokens| - 1..] == [Word(target)];
    assert Args([Word(target)]) == Some([path]) by {
      assert [Word(target)][1..] == [] && [path] + [] == [path];
    }
  }

  /** A redirected command writes its output to the file, whatever the file is called. */
  lemma RedirectOf(units: seq<Unit>, path: string, input: string, fs: Fs, dec: Decoder)
    requires Values(units).Some?
    ensures Command(AllMeant(units + [Operator(">"), Quoted(path)]), input, fs, dec)
            == if CanWrite(fs, path) then
                 var out := Simple(Values(units).value, input, fs, dec);
                 Out(out.fs.(files := out.fs.files[path := out.text]), "", out.ok)
               else Out(fs, "", false)
  {
    AllExpand(units);
    MeantJoins(units, [Operator(">"), Quoted(path)]);
    MeantAt([Operator(">"), Quoted(path)]);
    assert AllMeant([Operator(">"), Quoted(path)]) == [Op(">"), Word(Lits(path))];
    LitsExpand(path);
    Redirected(AllMeant(units), Lits(path), path, input, fs, dec);
  }

  lemma ValuesCons(u: Unit, more: seq<Unit>)
    requires Value(u).Some? && Values(more).Some?
    ensures Values([u] + more) == Some([Value(u).value] + Values(more).value)
  {
    assert ([u] + more)[1..] == more;
  }

  lemma ValuesOfThree(a: Unit, b: Unit, c: Unit)
    requires Value(a).Some? && Value(b).Some? && Value(c).Some?
    ensures Values([a, b, c]) == Some([Value(a).value, Value(b).value, Value(c).value])
  {
    ValuesCons(c, []);
    assert [c] + [] == [c] && [b] + [c] == [b, c] && [a] + [b, c] == [a, b, c];
    ValuesCons(b, [c]);
    ValuesCons(a, [b, c]);
    var x, y, z := Value(a).value, Value(b).value, Value(c).value;
    assert [z] + [] == [z] && [y] + [z] == [y, z] && [x] + [y, z] == [x, y, z];
  }

  lemma MakeValues(path: string)
    ensures Values(MakeUnits(path)) == Some(["mkdir", "-p", "--", MadeDir(path)])
  {
    ValuesOfThree(Ordinary("dirname"), Ordinary("--"), Quoted(path));
    var dir := Substitution(DirUnits(path));
    assert Value(dir) == Some(MadeDir(path));
    ValuesOfThree(Ordinary("-p"), Ordinary("--"), dir);
    ValuesCons(Ordinary("mkdir"), [Ordinary("-p"), Ordinary("--"), dir]);
    assert ["mkdir"] + ["-p", "--", MadeDir(path)] == ["mkdir", "-p", "--", MadeDir(path)];
    assert MakeUnits(path) == [Ordinary("mkdir")] + [Ordinary("-p"), Ordinary("--"), dir];
  }

  lemma ScriptCons(u: Unit, more: seq<Unit>)
    requires more != []
    ensures Script([u] + more) == Printed(u) + " " + Script(more)
  {
    assert ([u] + more)[1..] == more;
  }

  lemma TextOfThree(a: Unit, b: Unit, c: Unit)
    ensures Script([a, b, c]) == Printed(a) + " " + Printed(b) + " " + Printed(c)
  {
    ScriptCons(b, [c]);
    ScriptCons(a, [b, c]);
    assert [b] + [c] == [b, c] && [a] + [b, c] == [a, b, c];
    assert Printed(a) + " " + (Printed(b) + " " + Printed(c)) == Printed(a) + " " + Printed(b) + " " + Printed(c);
  }

  lemma Three(w: string, x: string, y: string, z: string)
    ensures w + (x + " " + y + " " + z) == w + x + " " + y + " " + z
  {
    assert w + (x + " " + y + " " + z) == w + (x + " " + y + " ") + z;
    assert w + (x + " " + y + " ") == w + (x + " " + y) + " ";
    assert w + (x + " " + y) == w + (x + " ") + y;
    assert w + (x + " ") == w + x + " ";
  }

  lemma TextOfFour(a: Unit, b: Unit, c: Unit, d: Unit)
    ensures Script([a, b, c, d]) == Printed(a) + " " + Printed(b) + " " + Printed(c) + " " + Printed(d)
  {
    TextOfThree(b, c, d);
    ScriptCons(a, [b, c, d]);
    assert [a] + [b, c, d] == [a, b, c, d];
    Three(Printed(a) + " ", Printed(b), Printed(c), Printed(d));
  }

  lemma MakeText(path: string)
    ensures Script(MakeUnits(path)) == "mkdir -p -- \"$(dirname -- " + Quote(path) + ")\""
  {
    TextOfThree(Ordinary("dirname"), Ordinary("--"), Quoted(path));
    assert "dirname" + " " + "--" + " " == "dirname -- ";
    TextOfFour(Ordinary("mkdir"), Ordinary("-p"), Ordinary("--"), Substitution(DirUnits(path)));
    assert "mkdir" + " " + "-p" + " " + "--" + " " == "mkdir -p -- ";
    MakeGlue(Quote(path));
  }

  lemma MakeGlue(p: string)
    ensures "mkdir -p -- " + ("\"$(" + ("dirname -- " + p) + ")\"") == "mkdir -p -- \"$(dirname -- " + p + ")\""
  {
    assert "\"$(" + ("dirname -- " + p) == "\"$(dirname -- " + p;
    var first := "\"$(dirname -- " + p;
    assert "mkdir -p -- " + (first + ")\"") == ("mkdir -p -- " + first) + ")\"";
    assert "mkdir -p -- " + first == "mkdir -p -- \"$(dirname -- " + p;
  }

  lemma WriteText(path: string, encoded: string)
    ensures Script(PrintUnits(encoded)) == "printf %s " + Quote(encoded)
    ensures Script(DecodeUnits(path)) == "base64 -d > " + Quote(path)
  {
    TextOfThree(Ordinary("printf"), Ordinary("%s"), Quoted(encoded));
    assert "printf" + " " + "%s" + " " == "printf %s ";
    TextOfFour(Ordinary("base64"), Ordinary("-d"), Operator(">"), Quoted(path));
    assert "base64" + " " + "-d" + " " + ">" + " " == "base64 -d > ";
  }

  lemma ScriptMiddle(a: seq<Unit>, op: string, b: seq<Unit>)
    requires a != [] && b != []
    ensures Script(a + [Operator(op)] + b) == Script(a) + " " + op + " " + Script(b)
  {
    ScriptJoins(a + [Operator(op)], b);
    ScriptJoins(a, [Operator(op)]);
  }

  /** The scripts are those of the tools, character by character. */
  lemma ScriptTexts(path: string, encoded: string)
    ensures Script(CatUnits(path)) == CatScript(path)
    ensures Script(PutUnits(path, encoded)) == PutScript(path, encoded)
  {
    TextOfThree(Ordinary("cat"), Ordinary("--"), Quoted(path));
    assert "cat" + " " + "--" + " " == "cat -- ";
    MakeText(path);
    WriteText(path, encoded);
    var write := PrintUnits(encoded) + [Operator("|")] + DecodeUnits(path);
    ScriptMiddle(PrintUnits(encoded), "|", DecodeUnits(path));
    ScriptMiddle(MakeUnits(path), "&&", write);
    Gluing(Quote(path), Quote(encoded));
  }

  lemma Gluing(p: string, e: string)
    ensures "mkdir -p -- \"$(dirname -- " + p + ")\"" + " " + "&&" + " " + ("printf %s " + e + " " + "|" + " " + ("base64 -d > " + p))
            == "mkdir -p -- \"$(dirname -- " + p + ")\" && printf %s " + e + " | base64 -d > " + p
  {
    var first := "mkdir -p -- \"$(dirname -- " + p;
    assert ")\"" + " " + "&&" + " " + "printf %s " == ")\" && printf %s ";
    assert " " + "|" + " " + "base64 -d > " == " | base64 -d > ";
    var middle, last := ")\" && printf %s ", " | base64 -d > ";
    assert first + ")\"" + " " + "&&" + " " + ("printf %s " + e + " " + "|" + " " + ("base64 -d > " + p))
           == first + (")\"" + " " + "&&" + " " + "printf %s ") + e + (" " + "|" + " " + "base64 -d > ") + p;
  }

  predicate NoOp(units: seq<Unit>, op: string) {
    forall i :: 0 <= i < |units| ==> units[i] != Operator(op)
  }

  lemma SplitUnits(a: seq<Unit>, op: string, b: seq<Unit>)
    requires NoOp(a, op) && NoOp(b, op)
    ensures SplitBy(AllMeant(a + [Operator(op)] + b), op) == [AllMeant(a), AllMeant(b)]
    ensures SplitBy(AllMeant(a), op) == [AllMeant(a)]
  {
    MeantAt(a);
    MeantAt(b);
    MeantJoins(a + [Operator(op)], b);
    MeantJoins(a, [Operator(op)]);
    assert AllMeant([Operator(op)]) == [Op(op)] + [];
    assert AllMeant(a + [Operator(op)] + b) == AllMeant(a) + [Op(op)] + AllMeant(b);
    SplitOnce(AllMeant(a), AllMeant(b), op);
    SplitOnce(AllMeant(b), [], op);
    assert [AllMeant(a)] + [AllMeant(b)] == [AllMeant(a), AllMeant(b)];
  }

  /** mkdir, of the directory the script names. */
  lemma MakeRuns(path: string, fs: Fs, dec: Decoder)
    ensures Pipeline(SplitBy(AllMeant(MakeUnits(path)), "|"), "", fs, dec)
            == if MadeDir(path) == "" || MadeDir(path) in fs.files then Out(fs, "", false)
               else Out(fs.(dirs := fs.dirs + {MadeDir(path)}), "", true)
  {
    SplitUnits(MakeUnits(path), "|", []);
    MakeValues(path);
    CommandOf(MakeUnits(path), "", fs, dec);
    var argv := ["mkdir", "-p", "--", MadeDir(path)];
    assert argv[..3] == ["mkdir", "-p", "--"];
  }

  /** printf into base64 -d into the file. */
  lemma WriteRuns(path: string, encoded: string, fs: Fs, dec: Decoder)
    requires dec(encoded).Some?
    ensures Pipeline(SplitBy(AllMeant(PrintUnits(encoded) + [Operator("|")] + DecodeUnits(path)), "|"), "", fs, dec)
            == if CanWrite(fs, path) then Out(fs.(files := fs.files[path := dec(encoded).value]), "", true) else Out(fs, "", false)
  {
    SplitUnits(PrintUnits(encoded), "|", DecodeUnits(path));
    PrintRuns(encoded, fs, dec);
    DecodeRuns(path, encoded, fs, dec);
  }

  lemma PrintRuns(encoded: string, fs: Fs, dec: Decoder)
    ensures Command(AllMeant(PrintUnits(encoded)), "", fs, dec) == Out(fs, encoded, true)
  {
    ValuesOfThree(Ordinary("printf"), Ordinary("%s"), Quoted(encoded));
    CommandOf(PrintUnits(encoded), "", fs, dec);
    assert ["printf", "%s", encoded][..2] == ["printf", "%s"];
  }

  lemma DecodeRuns(path: string, input: string, fs: Fs, dec: Decoder)
    requires dec(input).Some?
    ensures Command(AllMeant(DecodeUnits(path)), input, fs, dec)
            == if CanWrite(fs, path) then Out(fs.(files := fs.files[path := dec(input).value]), "", true) else Out(fs, "", false)
  {
    var words := [Ordinary("base64"), Ordinary("-d")];
    assert DecodeUnits(path) == words + [Operator(">"), Quoted(path)];
    ValuesCons(Ordinary("-d"), []);
    ValuesCons(Ordinary("base64"), [Ordinary("-d")]);
    assert [Ordinary("-d")] + [] == [Ordinary("-d")] && [Ordinary("base64")] + [Ordinary("-d")] == words;
    assert ["-d"] + [] == ["-d"] && ["base64"] + ["-d"] == ["base64", "-d"];
    RedirectOf(words, path, input, fs, dec);
  }

  lemma BashOf(units: seq<Unit>, fs: Fs, dec: Decoder)
    requires AllPrintable(units)
    ensures Bash(Script(units), fs, dec) == AndList(SplitBy(AllMeant(units), "&&"), fs, dec)
  {
    ScriptReads(units, "");
    assert Script(units) + "" == Script(units);
  }

  lemma WordsPrintable(units: seq<Unit>)
    requires units != [] && forall i :: 0 <= i < |units| ==> Printable(units[i])
    requires IsWord(units[|units| - 1])
    ensures AllPrintable(units)
  {
  }

  lemma MakePrintable(path: string)
    ensures AllPrintable(MakeUnits(path))
  {
    WordsPrintable(DirUnits(path));
    assert Printable(Substitution(DirUnits(path)));
    WordsPrintable(MakeUnits(path));
  }

  lemma PutPrintable(path: string, encoded: string)
    ensures AllPrintable(PutUnits(path, encoded))
  {
    MakePrintable(path);
    assert AllPrintable(PrintUnits(encoded));
    WordsPrintable(DecodeUnits(path));
  }

  lemma AndTwo(a: seq<Token>, b: seq<Token>, fs: Fs, dec: Decoder)
    ensures var first := Pipeline(SplitBy(a, "|"), "", fs, dec);
            var second := Pipeline(SplitBy(b, "|"), "", first.fs, dec);
            AndList([a, b], fs, dec) == if first.ok then Out(second.fs, first.text + second.text, second.ok) else first
  {
    var first := Pipeline(SplitBy(a, "|"), "", fs, dec);
    var second := Pipeline(SplitBy(b, "|"), "", first.fs, dec);
    assert [a, b][1..] == [b] && [b][1..] == [];
    assert second.text + "" == second.text;
    assert AndList([b], first.fs, dec) == second;
  }

  /** The script of putFile, whatever the path and the content are: it makes the directory and
      writes exactly this content to exactly this path, or fails; nothing else happens to a file. */
  lemma PutRuns(path: string, content: string, encoded: string, fs: Fs, dec: Decoder)
    requires dec(encoded) == Some(content)
    ensures var dir := MadeDir(path);
            var made := fs.(dirs := fs.dirs + {dir});
            Bash(PutScript(path, encoded), fs, dec)
            == if dir == "" || dir in fs.files then Out(fs, "", false)
               else if CanWrite(made, path) then Out(made.(files := fs.files[path := content]), "", true)
               else Out(made, "", false)
  {
    PutPrintable(path, encoded);
    BashOf(PutUnits(path, encoded), fs, dec);
    ScriptTexts(path, encoded);
    PutSplits(path, encoded);
    AndTwo(AllMeant(MakeUnits(path)), AllMeant(PrintUnits(encoded) + [Operator("|")] + DecodeUnits(path)), fs, dec);
    MakeRuns(path, fs, dec);
    WriteRuns(path, encoded, fs.(dirs := fs.dirs + {MadeDir(path)}), dec);
  }

  lemma PutSplits(path: string, encoded: string)
    ensures SplitBy(AllMeant(PutUnits(path, encoded)), "&&")
            == [AllMeant(MakeUnits(path)), AllMeant(PrintUnits(encoded) + [Operator("|")] + DecodeUnits(path))]
  {
    SplitUnits(MakeUnits(path), "&&", PrintUnits(encoded) + [Operator("|")] + DecodeUnits(path));
  }

  lemma CatRuns(path: string, fs: Fs, dec: Decoder)
    ensures Bash(CatScript(path), fs, dec)
            == if path == "-" then Out(fs, "", true)
               else if path in fs.files then Out(fs, fs.files[path], true) else Out(fs, "", false)
  {
    WordsPrintable(CatUnits(path));
    BashOf(CatUnits(path), fs, dec);
    ScriptTexts(path, "");
    CatCommand(path, fs, dec);
    var argv := ["cat", "--", path];
    assert argv[..2] == ["cat", "--"] && argv[0] == "cat";
  }

  lemma CatCommand(path: string, fs: Fs, dec: Decoder)
    ensures AndList(SplitBy(AllMeant(CatUnits(path)), "&&"), fs, dec) == Simple(["cat", "--", path], "", fs, dec)
  {
    SplitUnits(CatUnits(path), "&&", []);
    SplitUnits(CatUnits(path), "|", []);
    ValuesOfThree(Ordinary("cat"), Ordinary("--"), Quoted(path));
    CommandOf(CatUnits(path), "", fs, dec);
    AndOne(AllMeant(CatUnits(path)), fs, dec);
  }

  lemma AndOne(a: seq<Token>, fs: Fs, dec: Decoder)
    ensures AndList([a], fs, dec) == Pipeline(SplitBy(a, "|"), "", fs, dec)
  {
    var out := Pipeline(SplitBy(a, "|"), "", fs, dec);
    assert [a][1..] == [];
    assert out.text + "" == out.text;
  }

  lemma {:induction false} StripNone(s: string, c: char)
    requires s != "" && s[|s| - 1] != c
    ensures StripLast(s, c) == s
  {
  }

  lemma {:induction false} UpToLast(dir: string, name: string)
    requires forall i :: 0 <= i < |name| ==> name[i] != '/'
    requires dir == "" || dir[|dir| - 1] == '/'
    ensures UpToSlash(dir + name) == dir
  {
    if name == "" {
      assert dir + name == dir;
    } else {
      UpToLast(dir, name[..|name| - 1]);
      assert (dir + name)[..|dir + name| - 1] == dir + name[..|name| - 1];
    }
  }

  /** The directory of a file in a directory, and of one in none. */
  lemma DirnameOf(dir: string, name: string)
    requires name != "" && forall i :: 0 <= i < |name| ==> name[i] != '/'
    ensures dir != "" && dir[|dir| - 1] != '/' ==> Dirname(dir + "/" + name) == dir
    ensures Dirname("/" + name) == "/" && Dirname(name) == "."
  {
    var path := dir + "/" + name;
    assert path[|path| - 1] == name[|name| - 1];
    StripNone(path, '/');
    UpToLast(dir + "/", name);
    if dir != "" && dir[|dir| - 1] != '/' {
      assert (dir + "/")[..|dir|] == dir;
      StripNone(dir, '/');
    }
    StripNone("/" + name, '/');
    UpToLast("/", name);
    StripNone(name, '/');
    UpToLast("", name);
    assert "" + name == name;
  }

  /** A file in a directory, there already or not, is written and read back, whatever its name and its
      content are: unless there is a file where the directory should be, or a directory where the file
      should be. */
  lemma PutSucceeds(dir: string, name: string, content: string, encoded: string, fs: Fs, dec: Decoder)
    requires dec(encoded) == Some(content)
    requires dir != "" && dir[|dir| - 1] != '/' && dir[|dir| - 1] != '\n'
    requires name != "" && forall i :: 0 <= i < |name| ==> name[i] != '/'
    requires dir !in fs.files && dir + "/" + name !in fs.dirs
    ensures var path := dir + "/" + name;
            var fs1 := Fs(fs.dirs + {dir}, fs.files[path := content]);
            Bash(PutScript(path, encoded), fs, dec) == Out(fs1, "", true) && Bash(CatScript(path), fs1, dec) == Out(fs1, content, true)
  {
    var path := dir + "/" + name;
    DirnameOf(dir, name);
    StripNone(dir, '\n');
    assert |path| > |dir| && path[|path| - 1] == name[|name| - 1];
    PutRuns(path, content, encoded, fs, dec);
    CatRuns(path, Fs(fs.dirs + {dir}, fs.files[path := content]), dec);
  }

  /** What putFile wrote, catFile reads back, exactly when the content is empty or the path is not
      the one name that cat takes for its standard input. */
  lemma PutThenCat(path: string, content: string, encoded: string, fs: Fs, dec: Decoder)
    requires dec(encoded) == Some(content) && Bash(PutScript(path, encoded), fs, dec).ok
    ensures var fs1 := Bash(PutScript(path, encoded), fs, dec).fs;
            && fs1.files == fs.files[path := content]
            && (Bash(CatScript(path), fs1, dec) == Out(fs1, content, true) <==> path != "-" || content == "")
  {
    PutRuns(path, content, encoded, fs, dec);
    CatRuns(path, Bash(PutScript(path, encoded), fs, dec).fs, dec);
  }
}

/** Token recognition of the POSIX shell (POSIX.1-2008, Shell Command Language, sections 2.2 and 2.3), and what the
    generated commands mean to it. Texts that need an expansion or hold a comment are outside of this tokenizer. */
module Shell {
  import opened Wrappers
  import opened Text
  import opened Commands

  datatype Token = Word(text: string) | Op(text: string)

  predicate Blank(c: char) {
    c == ' ' || c == '\t'
  }

  predicate OperatorChar(c: char) {
    c == '&' || c == '|' || c == ';' || c == '<' || c == '>' || c == '(' || c == ')' || c == '\n'
  }

  predicate Expands(c: char) {
    c == '$' || c == '`'
  }

  /** Length of the longest operator a text starts with. */
  function OperatorLength(s: string): (n: nat)
    requires s != "" && OperatorChar(s[0])
    ensures 1 <= n <= |s|
  {
    if "<<-" <= s then 3
    else if "&&" <= s || "||" <= s || ";;" <= s || "<<" <= s || ">>" <= s || "<&" <= s || ">&" <= s || "<>" <= s
            || ">|" <= s then 2
    else 1
  }

  function Flush(word: Option<string>): seq<Token> {
    if word.Some? then [Word(word.value)] else []
  }

  function Sofar(word: Option<string>): string {
    if word.Some? then word.value else ""
  }

  function Prepend(ts: seq<Token>, rest: Option<seq<Token>>): Option<seq<Token>> {
    if rest.Some? then Some(ts + rest.value) else None
  }

  /** The tokens of a text after an unfinished word, if there is one. */
  function Scan(s: string, word: Option<string>): Option<seq<Token>>
    decreases |s|
  {
    if s == "" then Some(Flush(word))
    else
      var c := s[0];
      if Blank(c) then Prepend(Flush(word), Scan(s[1..], None))
      else if c == '\'' then Single(s[1..], Sofar(word))
      else if c == '"' then Double(s[1..], Sofar(word))
      else if c == '\\' then
        if |s| == 1 then None
        else if s[1] == '\n' then Scan(s[2..], word)
        else Scan(s[2..], Some(Sofar(word) + [s[1]]))
      else if Expands(c) || (c == '#' && word.None?) then None
      else if OperatorChar(c) then
        Prepend(Flush(word) + [Op(s[..OperatorLength(s)])], Scan(s[OperatorLength(s)..], None))
      else Scan(s[1..], Some(Sofar(word) + [c]))
  }

  /** Between single quotes, section 2.2.2: every character up to the next single quote stands for itself. */
  function Single(s: string, word: string): Option<seq<Token>>
    decreases |s|
  {
    if s == "" then None
    else if s[0] == '\'' then Scan(s[1..], Some(word))
    else Single(s[1..], word + [s[0]])
  }

  /** Between double quotes, section 2.2.3: a backslash quotes only $ ` " \ and the newline. */
  function Double(s: string, word: string): Option<seq<Token>>
    decreases |s|
  {
    if s == "" then None
    else if s[0] == '"' then Scan(s[1..], Some(word))
    else if Expands(s[0]) then None
    else if s[0] == '\\' && |s| > 1 && s[1] == '\n' then Double(s[2..], word)
    else if s[0] == '\\' && |s| > 1 && (Expands(s[1]) || s[1] == '"' || s[1] == '\\') then Double(s[2..], word + [s[1]])
    else Double(s[1..], word + [s[0]])
  }

  function Tokenize(s: string): Option<seq<Token>> {
    Scan(s, None)
  }

  // ----- quoting -----

  lemma EscapedQuote(rest: string, word: string)
    ensures Single("'\"'\"'" + rest, word) == Single(rest, word + "'")
  {
    var a := "\"'\"'" + rest;
    var b := "'\"'" + rest;
    var c := "\"'" + rest;
    var d := "'" + rest;
    assert ("'\"'\"'" + rest)[0] == '\'' && ("'\"'\"'" + rest)[1..] == a;
    assert a[0] == '"' && a[1..] == b;
    assert b[0] == '\'' && b[1..] == c;
    assert c[0] == '"' && c[1..] == d;
    assert d[0] == '\'' && d[1..] == rest;
    assert Single("'\"'\"'" + rest, word) == Scan(a, Some(word)) == Double(b, word);
    assert Double(b, word) == Double(c, word + "'");
    assert Double(c, word + "'") == Scan(d, Some(word + "'")) == Single(rest, word + "'");
  }

  lemma {:induction false} SingleReads(value: string, rest: string, word: string)
    ensures Single(EscapeQuotes(value) + "'" + rest, word) == Scan(rest, Some(word + value))
  {
    if value == "" {
      assert EscapeQuotes(value) + "'" + rest == "'" + rest;
      assert ("'" + rest)[1..] == rest;
      ConcatNil(word);
    } else {
      var c, tail := value[0], value[1..];
      var after := EscapeQuotes(tail) + "'" + rest;
      SingleReads(tail, rest, word + [c]);
      assert value == [c] + tail;
      ConcatAssoc(word, [c], tail);
      if c == '\'' {
        assert EscapeQuotes(value) + "'" + rest == "'\"'\"'" + after;
        EscapedQuote(after, word);
      } else {
        assert EscapeQuotes(value) + "'" + rest == [c] + after;
        assert ([c] + after)[1..] == after;
      }
    }
  }

  /** A quoted value adds itself, and nothing else, to the word it stands in. */
  lemma QuoteReads(value: string, rest: string, word: Option<string>)
    ensures Scan(ShellQuote(value) + rest, word) == Scan(rest, Some(Sofar(word) + value))
  {
    var s := ShellQuote(value) + rest;
    assert s[0] == '\'' && s[1..] == EscapeQuotes(value) + "'" + rest;
    SingleReads(value, rest, Sofar(word));
  }

  /** For every value, ShellQuote makes one word with that value. */
  lemma QuoteIsOneWord(value: string)
    ensures Tokenize(ShellQuote(value)) == Some([Word(value)])
  {
    QuoteReads(value, "", None);
    ConcatNil(ShellQuote(value));
    ConcatNil(value);
    assert Scan("", Some(value)) == Some([Word(value)]);
  }

  // ----- plain words -----

  predicate PlainChar(c: char) {
    'a' <= c <= 'z' || 'A' <= c <= 'Z' || '0' <= c <= '9' || c == '-' || c == '=' || c == '.' || c == '/'
  }

  predicate Plain(s: string) {
    forall i :: 0 <= i < |s| ==> PlainChar(s[i])
  }

  lemma PlainRead(s: string, word: Option<string>)
    requires s != "" && PlainChar(s[0])
    ensures Scan(s, word) == Scan(s[1..], Some(Sofar(word) + [s[0]]))
  {
    var c := s[0];
    assert !Blank(c) && !OperatorChar(c) && !Expands(c) && c != '\'' && c != '"' && c != '\\' && c != '#';
  }

  lemma FirstRest(w: string, rest: string)
    requires w != ""
    ensures (w + rest)[0] == w[0] && (w + rest)[1..] == w[1..] + rest && [w[0]] + w[1..] == w
  {}

  lemma {:induction false} PlainReads(w: string, rest: string, word: Option<string>)
    requires Plain(w) && w != ""
    ensures Scan(w + rest, word) == Scan(rest, Some(Sofar(word) + w))
    decreases |w|
  {
    var c, tail := w[0], w[1..];
    FirstRest(w, rest);
    PlainRead(w + rest, word);
    if tail == "" {
      ConcatNil(rest);
      ConcatNil([c]);
    } else {
      PlainReads(tail, rest, Some(Sofar(word) + [c]));
      ConcatAssoc(Sofar(word), [c], tail);
    }
  }

  lemma WordEnds(word: string, rest: string)
    ensures Scan(" " + rest, Some(word)) == Prepend([Word(word)], Scan(rest, None))
  {
    assert (" " + rest)[1..] == rest;
  }

  lemma PlainWord(w: string, rest: string)
    requires Plain(w) && w != ""
    ensures Scan(w + (" " + rest), None) == Prepend([Word(w)], Scan(rest, None))
  {
    PlainReads(w, " " + rest, None);
    ConcatNil(w);
    WordEnds(w, rest);
  }

  lemma AndIf(word: string, rest: string)
    requires rest != "" && PlainChar(rest[0])
    ensures Scan(AND_THEN + rest, Some(word)) == Prepend([Word(word), Op("&&")], Scan(rest, None))
  {
    var a := "&& " + rest;
    var b := " " + rest;
    assert AND_THEN + rest == " " + a;
    WordEnds(word, a);
    assert a[0] == '&' && a[1] == '&' && a[..2] == "&&" && a[2..] == b;
    assert "&&" <= a && !("<<-" <= a) && OperatorLength(a) == 2;
    assert Flush(None) + [Op("&&")] == [Op("&&")];
    assert Scan(a, None) == Prepend([Op("&&")], Scan(b, None));
    assert b[1..] == rest;
    assert Scan(b, None) == Prepend([], Scan(rest, None));
    PrependNone(Scan(rest, None));
    PrependTwice([Word(word)], [Op("&&")], Scan(rest, None));
    assert [Word(word)] + [Op("&&")] == [Word(word), Op("&&")];
  }

  lemma PrependTwice(a: seq<Token>, b: seq<Token>, rest: Option<seq<Token>>)
    ensures Prepend(a, Prepend(b, rest)) == Prepend(a + b, rest)
  {
    if rest.Some? {
      ConcatAssoc(a, b, rest.value);
    }
  }

  lemma PrependNone(rest: Option<seq<Token>>)
    ensures Prepend([], rest) == rest
  {
    if rest.Some? {
      ConcatNil(rest.value);
    }
  }

  // ----- the generated commands -----

  function BashTokens(command: string, limit: int): seq<Token> {
    [Word("bash"), Word("-o"), Word("pipefail"), Word("-c"), Word(Pipeline(command, limit))]
  }

  lemma BashWords()
    ensures Plain("bash") && Plain("-o") && Plain("pipefail") && Plain("-c")
    ensures Plain("cd") && Plain("export") && Plain("GOCACHE=")
  {}

  lemma BashSplits(rest: string)
    ensures BASH + rest == "bash" + (" " + ("-o" + (" " + ("pipefail" + (" " + ("-c" + (" " + rest)))))))
  {}

  lemma BashReads(rest: string)
    ensures Scan(BASH + rest, None)
         == Prepend([Word("bash"), Word("-o"), Word("pipefail"), Word("-c")], Scan(rest, None))
  {
    BashWords();
    BashSplits(rest);
    var s3 := "-c" + (" " + rest);
    var s2 := "pipefail" + (" " + s3);
    var s1 := "-o" + (" " + s2);
    PlainWord("-c", rest);
    PlainWord("pipefail", s3);
    PlainWord("-o", s2);
    PlainWord("bash", s1);
    FourWords("bash", "-o", "pipefail", "-c", Scan(rest, None));
  }

  lemma FourWords(a: string, b: string, c: string, d: string, rest: Option<seq<Token>>)
    ensures Prepend([Word(a)], Prepend([Word(b)], Prepend([Word(c)], Prepend([Word(d)], rest))))
         == Prepend([Word(a), Word(b), Word(c), Word(d)], rest)
  {
    if rest.Some? {
      assert [Word(a)] + ([Word(b)] + ([Word(c)] + ([Word(d)] + rest.value)))
          == [Word(a), Word(b), Word(c), Word(d)] + rest.value;
    }
  }

  /** What the generated pieces are: the output of the command, both streams, cut after so many bytes and read to its
      end; go by its full path in the container, and the container's own copy of the repository. */
  lemma GeneratedTexts(command: string, limit: int, path: string)
    ensures Pipeline(command, limit)
         == "{ " + command + "; } 2>&1 | { head -c " + Itoa(limit) + "; cat >/dev/null; }"
    ensures SandboxExecCommand("container", "go " + command) == "/usr/local/go/bin/go " + command
    ensures !("go " <= command) ==> SandboxExecCommand("container", command) == command
    ensures SandboxRepoPath("container", path) == "/workspace/repo"
    ensures GO_CACHE == "/tmp/cr-agent-gocache" && AllowedReviewCommands(false) == ["go test ./...", "go vet ./..."]
    ensures AllowedReviewCommands(true) == ["go test ./...", "go vet ./...", "staticcheck ./..."]
    ensures limit <= 0 ==> BoundedSandboxCommand(command, limit) == command
  {
    assert "go " + command == "go" + (" " + command);
    assert ("go" + (" " + command))[2..] == " " + command;
    assert "/usr/local/go/bin/go" + (" " + command) == "/usr/local/go/bin/go " + command;
    assert AllowedReviewCommands(false) == ["go test ./...", "go vet ./..."];
  }

  /** A bounded command is bash, -o, pipefail, -c and exactly the unquoted pipeline. */
  lemma BoundedTokens(command: string, limit: int)
    requires limit > 0
    ensures Tokenize(BoundedSandboxCommand(command, limit)) == Some(BashTokens(command, limit))
  {
    var p := Pipeline(command, limit);
    BashReads(ShellQuote(p));
    QuoteIsOneWord(p);
    assert [Word("bash"), Word("-o"), Word("pipefail"), Word("-c")] + [Word(p)] == BashTokens(command, limit);
  }

  lemma ThreeTokens(a: string, b: string, rest: Option<seq<Token>>)
    ensures Prepend([Word(a)], Prepend([Word(b), Op("&&")], rest)) == Prepend([Word(a), Word(b), Op("&&")], rest)
  {
    if rest.Some? {
      assert [Word(a)] + ([Word(b), Op("&&")] + rest.value) == [Word(a), Word(b), Op("&&")] + rest.value;
    }
  }

  /** A plain command word and its argument, a plain beginning and a quoted rest, up to &&. */
  lemma StepReads(name: string, prefix: string, value: string, rest: string)
    requires Plain(name) && name != "" && Plain(prefix) && rest != "" && PlainChar(rest[0])
    ensures Scan(name + (" " + (prefix + (ShellQuote(value) + (AND_THEN + rest)))), None)
         == Prepend([Word(name), Word(prefix + value), Op("&&")], Scan(rest, None))
  {
    var s1 := AND_THEN + rest;
    var s2 := ShellQuote(value) + s1;
    PlainWord(name, prefix + s2);
    if prefix == "" {
      assert prefix + s2 == s2 && prefix + value == value;
      QuoteReads(value, s1, None);
      assert "" + value == value;
    } else {
      PlainReads(prefix, s2, None);
      assert "" + prefix == prefix;
      QuoteReads(value, s1, Some(prefix));
    }
    AndIf(prefix + value, rest);
    ThreeTokens(name, prefix + value, Scan(rest, None));
  }

  /** For every repository path the fallback code is three commands joined by &&: change to that path, set the
      cache, and run the bounded command. */
  lemma FallbackTokens(runtime: string, hostRepoPath: string, command: string, limit: int)
    requires limit > 0
    ensures Tokenize(SandboxCode(runtime, hostRepoPath, BoundedSandboxCommand(command, limit)))
         == Some([Word("cd"), Word(SandboxRepoPath(runtime, hostRepoPath)), Op("&&"),
                  Word("export"), Word("GOCACHE=" + GO_CACHE), Op("&&")] + BashTokens(command, limit))
  {
    var path := SandboxRepoPath(runtime, hostRepoPath);
    var bounded := BoundedSandboxCommand(command, limit);
    var rest := "export" + (" " + ("GOCACHE=" + (ShellQuote(GO_CACHE) + (AND_THEN + bounded))));
    BashWords();
    FallbackSplits(runtime, hostRepoPath, bounded);
    BoundedTokens(command, limit);
    StepReads("cd", "", path, rest);
    assert "" + path == path;
    StepReads("export", "GOCACHE=", GO_CACHE, bounded);
    FallbackJoins(path, BashTokens(command, limit));
  }

  lemma FallbackJoins(path: string, bash: seq<Token>)
    ensures Prepend([Word("cd"), Word(path), Op("&&")],
                    Prepend([Word("export"), Word("GOCACHE=" + GO_CACHE), Op("&&")], Some(bash)))
         == Some([Word("cd"), Word(path), Op("&&"),
                  Word("export"), Word("GOCACHE=" + GO_CACHE), Op("&&")] + bash)
  {
    var a := [Word("cd"), Word(path), Op("&&")];
    var b := [Word("export"), Word("GOCACHE=" + GO_CACHE), Op("&&")];
    ConcatAssoc(a, b, bash);
    assert a + b == [Word("cd"), Word(path), Op("&&"), Word("export"), Word("GOCACHE=" + GO_CACHE), Op("&&")];
  }

  lemma FallbackSplits(runtime: string, hostRepoPath: string, command: string)
    ensures SandboxCode(runtime, hostRepoPath, command)
         == "cd" + (" " + ("" + (ShellQuote(SandboxRepoPath(runtime, hostRepoPath)) + (AND_THEN
            + ("export" + (" " + ("GOCACHE=" + (ShellQuote(GO_CACHE) + (AND_THEN + command)))))))))
  {
    var q := ShellQuote(SandboxRepoPath(runtime, hostRepoPath));
    SplitLiterals();
    SplitText("cd ", "cd", "", q, AND_THEN, "export GOCACHE=", "export", "GOCACHE=", ShellQuote(GO_CACHE), command);
  }

  lemma SplitLiterals()
    ensures "cd " == "cd" + " " && "export GOCACHE=" == "export" + (" " + "GOCACHE=")
  {}

  lemma SplitText(cd_: string, cd: string, none: string, q: string, and: string, export_: string,
                  export0: string, cache: string, c: string, command: string)
    requires cd_ == cd + " " && none == "" && export_ == export0 + (" " + cache)
    ensures cd_ + q + and + export_ + c + and + command
         == cd + (" " + (none + (q + (and + (export0 + (" " + (cache + (c + (and + command)))))))))
  {}
}

/** The command tokenizer: splits a command line into argv tokens at spaces
    outside double quotes. It is a character-by-character state machine
    with a token under construction and two flags, `quoted` and `escaped`.
    What it does, which is not a shell lexer: a backslash is always kept in
    the token; a double quote is never kept; outside quotes a double quote
    always opens quoting; inside quotes it closes quoting unless the
    character before it was a backslash. */
module CommandTokenizer {
  import opened Wrappers
  import opened Exceptions
  import Strings

  const UnmatchedQuotes := "Unmatched quotes in string literal"

  /** The tokenizer's state: the tokens already produced, the token under
      construction, and the two flags. */
  datatype Lexer = Lexer(tokens: seq<string>, builder: string, quoted: bool, escaped: bool)

  const Start := Lexer([], "", false, false)

  /** The effect of one character on the state. */
  function Step(st: Lexer, c: char): Lexer
  {
    if c == '\\' then
      st.(builder := st.builder + [c], escaped := true)
    else if c == '"' then
      st.(quoted := !(st.quoted && !st.escaped), escaped := false)
    else if c == ' ' && !st.quoted then
      st.(tokens := st.tokens + [st.builder], builder := "")
    else
      st.(builder := st.builder + [c], escaped := false)
  }

  /** The state after reading `s` from the start state. */
  function Scan(s: string): Lexer
  {
    if s == [] then Start else Step(Scan(s[..|s| - 1]), s[|s| - 1])
  }

  /** The tokens of `command`, or the exception for an unterminated quote. */
  function Parse(command: string): Result<seq<string>, Exception>
  {
    var st := Scan(command);
    if st.quoted then Failure(ArgumentException(UnmatchedQuotes))
    else Success(st.tokens + [st.builder])
  }

  /** The spaces of `s` that separate tokens: those read outside quotes. */
  function UnquotedSpaces(s: string): nat
  {
    if s == [] then 0
    else
      var init := s[..|s| - 1];
      UnquotedSpaces(init) + (if s[|s| - 1] == ' ' && !Scan(init).quoted then 1 else 0)
  }

  /** The tokenizer itself, character by character as the library runs it. */
  method ParseCommand(command: string) returns (r: Result<seq<string>, Exception>)
    ensures r == Parse(command)
  {
    var tokens: seq<string> := [];
    var builder: string := "";
    var quoted, escaped := false, false;
    for i := 0 to |command|
      invariant Scan(command[..i]) == Lexer(tokens, builder, quoted, escaped)
    {
      var c := command[i];
      assert command[..i + 1][..i] == command[..i];
      if c == '\\' {
        escaped := true;
      } else if c == '"' {
        if quoted && !escaped {
          quoted := false;
        } else {
          quoted := true;
        }
      } else if c == ' ' && !quoted {
        tokens := tokens + [builder];
        builder := "";
        continue;
      }
      if escaped && c != '\\' {
        escaped := false;
      }
      if c != '"' || escaped {
        builder := builder + [c];
      }
    }
    assert command[..|command|] == command;
    if quoted {
      return Failure(ArgumentException(UnmatchedQuotes));
    }
    return Success(tokens + [builder]);
  }

  /** Joining the tokens with single spaces gives back the input with its
      double quotes removed. */
  lemma {:induction false} ScanJoin(s: string)
    ensures Strings.Join(Scan(s).tokens + [Scan(s).builder], ' ') == Strings.RemoveAll(s, '"')
  {
    if s != [] {
      var init := s[..|s| - 1];
      var c := s[|s| - 1];
      ScanJoin(init);
      var st := Scan(init);
      var parts := st.tokens + [st.builder];
      if c == '\\' || (c != '"' && !(c == ' ' && !st.quoted)) {
        var parts' := st.tokens + [st.builder + [c]];
        assert parts'[..|parts'| - 1] == parts[..|parts| - 1];
      } else if c == ' ' && !st.quoted {
        var parts' := st.tokens + [st.builder] + [""];
        assert parts'[..|parts'| - 1] == parts;
      }
    }
  }

  /** No token contains a double quote. */
  lemma {:induction false} ScanNoQuotes(s: string)
    ensures '"' !in Scan(s).builder
    ensures forall i :: 0 <= i < |Scan(s).tokens| ==> '"' !in Scan(s).tokens[i]
  {
    if s != [] {
      ScanNoQuotes(s[..|s| - 1]);
    }
  }

  /** One token per unquoted space, plus the final one. */
  lemma {:induction false} ScanCount(s: string)
    ensures |Scan(s).tokens| == UnquotedSpaces(s)
  {
    if s != [] {
      ScanCount(s[..|s| - 1]);
    }
  }

  /** While quoted, `escaped` says exactly that the previous character was
      a backslash; the flag left set by an unquoted space never matters. */
  lemma {:induction false} EscapedInQuotes(s: string)
    ensures Scan(s).quoted ==> (Scan(s).escaped <==> (|s| > 0 && s[|s| - 1] == '\\'))
  {
    if s != [] {
      EscapedInQuotes(s[..|s| - 1]);
    }
  }

  /** A double quote read outside quotes always opens quoting, even after a
      backslash; read inside quotes it closes quoting unless the character
      before it was a backslash. */
  lemma QuoteToggles(s: string)
    ensures !Scan(s).quoted ==> Scan(s + ['"']).quoted
    ensures Scan(s).quoted ==>
      (Scan(s + ['"']).quoted <==> (|s| > 0 && s[|s| - 1] == '\\'))
  {
    assert (s + ['"'])[..|s|] == s;
    EscapedInQuotes(s);
  }

  /** What a successful parse yields: the tokens, joined by single spaces,
      give back the command without its double quotes; there are as many
      tokens as unquoted spaces plus one; no token holds a double quote; and
      the parse fails exactly when the command ends inside quotes. */
  lemma ParseSpec(command: string)
    ensures Parse(command).Failure? <==> Scan(command).quoted
    ensures Parse(command).Failure? ==> Parse(command).error == ArgumentException(UnmatchedQuotes)
    ensures Parse(command).Success? ==>
      var tokens := Parse(command).value;
      && Strings.Join(tokens, ' ') == Strings.RemoveAll(command, '"')
      && |tokens| == UnquotedSpaces(command) + 1
      && forall i :: 0 <= i < |tokens| ==> '"' !in tokens[i]
  {
    ScanJoin(command);
    ScanCount(command);
    ScanNoQuotes(command);
  }

  /** Backslashes survive tokenization: the tokens hold exactly as many as
      the command. */
  lemma BackslashesKept(command: string)
    requires Parse(command).Success?
    ensures Strings.Count(Strings.Join(Parse(command).value, ' '), '\\') == Strings.Count(command, '\\')
  {
    ScanJoin(command);
  }

  /** A run of characters that the tokenizer copies verbatim in the given
      mode: no double quote, no backslash, and a space only inside quotes. */
  predicate PlainRun(w: string, quoted: bool)
  {
    forall i :: 0 <= i < |w| ==> w[i] != '"' && w[i] != '\\' && (w[i] == ' ' ==> quoted)
  }

  /** A plain run is appended to the token under construction; in
      particular spaces read inside quotes are literal. */
  lemma {:induction false} ScanPlainRun(p: string, w: string)
    requires PlainRun(w, Scan(p).quoted)
    ensures Scan(p + w) == Scan(p).(builder := Scan(p).builder + w, escaped := Scan(p).escaped && w == [])
  {
    if w == [] {
      assert p + w == p;
    } else {
      var w' := w[..|w| - 1];
      assert PlainRun(w', Scan(p).quoted);
      ScanPlainRun(p, w');
      assert (p + w)[..|p + w| - 1] == p + w';
      assert Scan(p).builder + w' + [w[|w| - 1]] == Scan(p).builder + w;
    }
  }

  lemma EntryPointFirstToken()
    ensures Scan("sh ") == Lexer(["sh"], "", false, false)
  {
    assert "s"[..0] == "";
    assert Scan("s") == Lexer([], "s", false, false);
    assert "sh"[..1] == "s";
    assert Scan("sh") == Lexer([], "sh", false, false);
    assert "sh "[..2] == "sh";
  }

  lemma EntryPointPrefix()
    ensures Scan("sh -c \"") == Lexer(["sh", "-c"], "", true, false)
  {
    EntryPointFirstToken();
    assert "sh -"[..3] == "sh ";
    assert Scan("sh -") == Lexer(["sh"], "-", false, false);
    assert "sh -c"[..4] == "sh -";
    assert Scan("sh -c") == Lexer(["sh"], "-c", false, false);
    assert "sh -c "[..5] == "sh -c";
    assert Scan("sh -c ") == Lexer(["sh", "-c"], "", false, false);
    assert "sh -c \""[..6] == "sh -c ";
  }

  lemma EntryPointQuoted()
    ensures Scan("sh -c \"echo -n hi") == Lexer(["sh", "-c"], "echo -n hi", true, false)
  {
    EntryPointPrefix();
    assert PlainRun("echo -n hi", true);
    ScanPlainRun("sh -c \"", "echo -n hi");
    assert "sh -c \"" + "echo -n hi" == "sh -c \"echo -n hi";
    assert "" + "echo -n hi" == "echo -n hi";
  }

  /** The entry point the integration tests use: the quoted argument keeps
      its spaces and loses its quotes. */
  lemma EntryPointExample()
    ensures Parse("sh -c \"echo -n hi\"") == Success(["sh", "-c", "echo -n hi"])
  {
    EntryPointQuoted();
    assert "sh -c \"echo -n hi\""[..17] == "sh -c \"echo -n hi";
    assert ["sh", "-c"] + ["echo -n hi"] == ["sh", "-c", "echo -n hi"];
  }

  /** The empty command is one empty token. */
  lemma EmptyCommandExample()
    ensures Parse("") == Success([""])
  {
    assert Scan("") == Start;
    assert Start.tokens + [Start.builder] == [""];
  }

  lemma SpacesPrefix()
    ensures Scan("a ") == Lexer(["a"], "", false, false)
  {
    assert "a"[..0] == "";
    assert Scan("a") == Lexer([], "a", false, false);
    assert "a "[..1] == "a";
  }

  /** Consecutive and trailing spaces give empty tokens. */
  lemma EmptyTokensExample()
    ensures Parse("a  b ") == Success(["a", "", "b", ""])
  {
    SpacesPrefix();
    assert "a  "[..2] == "a ";
    assert Scan("a  ") == Lexer(["a", ""], "", false, false);
    assert "a  b"[..3] == "a  ";
    assert Scan("a  b") == Lexer(["a", ""], "b", false, false);
    assert "a  b "[..4] == "a  b";
    assert Scan("a  b ") == Lexer(["a", "", "b"], "", false, false);
    assert ["a", "", "b"] + [""] == ["a", "", "b", ""];
  }

  /** An unterminated quote fails. */
  lemma UnterminatedExample()
    ensures Parse("a \"b") == Failure(ArgumentException(UnmatchedQuotes))
  {
    SpacesPrefix();
    assert "a \""[..2] == "a ";
    assert Scan("a \"").quoted;
    assert "a \"b"[..3] == "a \"";
  }

  lemma QuotedBackslashPrefix()
    ensures Scan("\"a\\") == Lexer([], "a\\", true, true)
  {
    assert "\""[..0] == "";
    assert Scan("\"") == Lexer([], "", true, false);
    assert "\"a"[..1] == "\"";
    assert Scan("\"a") == Lexer([], "a", true, false);
    assert "\"a\\"[..2] == "\"a";
  }

  /** Inside quotes a backslash keeps the next double quote from closing
      them, and stays in the token. */
  lemma QuotedBackslashExample()
    ensures Parse("\"a\\\"b\"") == Success(["a\\b"])
  {
    QuotedBackslashPrefix();
    assert "\"a\\\""[..3] == "\"a\\";
    assert Scan("\"a\\\"") == Lexer([], "a\\", true, false);
    assert "\"a\\\"b"[..4] == "\"a\\\"";
    assert Scan("\"a\\\"b") == Lexer([], "a\\b", true, false);
    assert "\"a\\\"b\""[..5] == "\"a\\\"b";
    assert [] + ["a\\b"] == ["a\\b"];
  }

  /** Outside quotes a backslash does not stop a double quote from opening
      them, so this command is unterminated. */
  lemma UnquotedBackslashExample()
    ensures Parse("a\\\"b") == Failure(ArgumentException(UnmatchedQuotes))
  {
    assert "a"[..0] == "";
    assert Scan("a") == Lexer([], "a", false, false);
    assert "a\\"[..1] == "a";
    assert Scan("a\\") == Lexer([], "a\\", false, true);
    assert "a\\\""[..2] == "a\\";
    assert Scan("a\\\"").quoted;
    assert "a\\\"b"[..3] == "a\\\"";
  }
}

/**
 * `tokenizeCommandLine` of example/utils.js: splits a command line into
 * program and arguments, honouring single and double quotes and backslash
 * escapes.  `Step` is the body of the character loop, `Run` the loop itself
 * and `Tokenize` the whole function; `TokenizeCommandLine` is the loop as
 * written, proved to compute `Tokenize`.
 */
module CommandLine {
  import opened Wrappers

  /**
   * The loop variables: the tokens pushed so far, the token being built, the
   * open quote character (the source's `""` is `None`) and whether the
   * previous character was a backslash.
   */
  datatype State = State(args: seq<string>, current: string, quote: Option<char>, escaped: bool)

  const Init := State([], "", None, false)

  predicate IsBlank(c: char) {
    c == ' ' || c == '\t'
  }

  /** One iteration of the loop for the character `c`. */
  function Step(st: State, c: char): (r: State)
    // one character pushes at most one token, the current one, and never removes a token
    ensures st.args <= r.args && |r.args| <= |st.args| + 1
    ensures |r.args| == |st.args| + 1 ==> r.args[|st.args|] == st.current
    // a token and a character of the current token each take at least one character of input
    ensures |r.args| + |r.current| <= |st.args| + |st.current| + 1
  {
    if st.escaped then
      // the character after a backslash is taken literally
      State(st.args, st.current + [c], st.quote, false)
    else if st.quote.Some? then
      if c == st.quote.value then State(st.args + [st.current], "", None, c == '\\')
      else if c == '\\' then State(st.args, st.current, st.quote, true)
      else State(st.args, st.current + [c], st.quote, false)
    else if c == '\\' then State(st.args, st.current, None, true)
    else if c == '\n' then State(st.args + [st.current], "", None, false)
    else if IsBlank(c) then
      if st.current != "" then State(st.args + [st.current], "", None, false)
      else State(st.args, st.current, None, false)
    else if c == '\'' || c == '"' then State(st.args, st.current, Some(c), false)
    else State(st.args, st.current + [c], None, false)
  }

  /** A quote is only ever opened by a quote mark. */
  predicate QuoteIsQuoteMark(st: State) {
    st.quote == None || st.quote == Some('\'') || st.quote == Some('"')
  }

  /** The loop over `s` from the state `st`. */
  function Run(st: State, s: string): (r: State)
    ensures st.args <= r.args
    ensures |r.args| + |r.current| <= |st.args| + |st.current| + |s|
    decreases |s|
  {
    if |s| == 0 then st else Run(Step(st, s[0]), s[1..])
  }

  /** After the loop: the last token is pushed only if non-empty and not cut short by a quote or a backslash. */
  function Finish(st: State): (tokens: seq<string>)
    ensures tokens == st.args || tokens == st.args + [st.current]
    ensures |tokens| == |st.args| + 1 ==> st.current != "" && st.quote.None? && !st.escaped
  {
    if st.current != "" && !st.escaped && st.quote.None? then st.args + [st.current] else st.args
  }

  /** `tokenizeCommandLine(s)`: never more tokens than characters. */
  function Tokenize(s: string): (tokens: seq<string>)
    ensures |tokens| <= |s|
  {
    Finish(Run(Init, s))
  }

  /** The function as written: a `for` loop over the characters of `s`. */
  method TokenizeCommandLine(s: string) returns (args: seq<string>)
    ensures args == Tokenize(s)
  {
    args := [];
    var currentToken: string := "";
    var quoteChar: Option<char> := None;
    var escaped := false;
    for i := 0 to |s|
      invariant Run(State(args, currentToken, quoteChar, escaped), s[i..]) == Run(Init, s)
    {
      assert s[i..][1..] == s[i + 1..];
      var c := s[i];
      if escaped {
        escaped := false;
        currentToken := currentToken + [c];
      } else if quoteChar.Some? {
        escaped := c == '\\';
        if quoteChar.value == c {
          quoteChar := None;
          args := args + [currentToken];
          currentToken := "";
        } else if !escaped {
          currentToken := currentToken + [c];
        }
      } else {
        escaped := c == '\\';
        if c == '\\' {
        } else if c == '\n' {
          args := args + [currentToken];
          currentToken := "";
        } else if c == ' ' || c == '\t' {
          if currentToken != "" {
            args := args + [currentToken];
            currentToken := "";
          }
        } else if c == '\'' || c == '"' {
          quoteChar := Some(c);
        } else {
          currentToken := currentToken + [c];
        }
      }
    }
    assert s[|s|..] == [];
    if currentToken != "" && !escaped && quoteChar.None? {
      args := args + [currentToken];
    }
  }

  /** Running over `a + b` is running over `a`, then over `b`. */
  lemma {:induction false} RunConcat(st: State, a: string, b: string)
    ensures Run(st, a + b) == Run(Run(st, a), b)
    decreases |a|
  {
    if |a| == 0 {
      assert a + b == b;
    } else {
      assert (a + b)[1..] == a[1..] + b;
      RunConcat(Step(st, a[0]), a[1..], b);
    }
  }

  /** Every state reached from one with no quote or a quote mark has no quote or a quote mark. */
  lemma {:induction false} QuoteMarksOnly(st: State, s: string)
    requires QuoteIsQuoteMark(st)
    ensures QuoteIsQuoteMark(Run(st, s))
    decreases |s|
  {
    if |s| > 0 {
      QuoteMarksOnly(Step(st, s[0]), s[1..]);
    }
  }

  /** A character that neither quotes, escapes, delimits nor breaks a line. */
  predicate IsWordChar(c: char) {
    !IsBlank(c) && c != '\n' && c != '\\' && c != '\'' && c != '"'
  }

  /** A command line made of word characters and blanks only. */
  predicate IsPlain(s: string) {
    forall i :: 0 <= i < |s| ==> IsBlank(s[i]) || IsWordChar(s[i])
  }

  /** The length of the leading run of word characters. */
  function WordLength(s: string): (n: nat)
    ensures n <= |s|
  {
    if |s| > 0 && IsWordChar(s[0]) then 1 + WordLength(s[1..]) else 0
  }

  /** Reference splitting: the maximal runs of word characters, in order. */
  function Words(s: string): (ws: seq<string>)
    ensures |ws| <= |s|
    decreases |s|
  {
    if |s| == 0 then []
    else if IsBlank(s[0]) then Words(s[1..])
    else if WordLength(s) == 0 then Words(s[1..])
    else [s[..WordLength(s)]] + Words(s[WordLength(s)..])
  }

  lemma {:induction false} WordLengthOfWord(w: string, t: string)
    requires forall i :: 0 <= i < |w| ==> IsWordChar(w[i])
    requires |t| == 0 || !IsWordChar(t[0])
    ensures WordLength(w + t) == |w|
    decreases |w|
  {
    if |w| > 0 {
      assert (w + t)[1..] == w[1..] + t;
      WordLengthOfWord(w[1..], t);
    } else {
      assert w + t == t;
    }
  }

  /** A non-empty word followed by nothing or a blank is the first of the words. */
  lemma WordsOfWord(w: string, t: string)
    requires |w| > 0 && forall i :: 0 <= i < |w| ==> IsWordChar(w[i])
    requires |t| == 0 || IsBlank(t[0])
    ensures Words(w + t) == [w] + Words(t)
  {
    WordLengthOfWord(w, t);
    assert (w + t)[..|w|] == w;
    assert (w + t)[|w|..] == t;
  }

  /**
   * On a plain line, running from a state outside quotes whose current token
   * is a (possibly empty) word, the tokens that come out are the words of the
   * current token followed by the rest.
   */
  lemma {:induction false} PlainRun(args: seq<string>, cur: string, s: string)
    requires IsPlain(s)
    requires forall i :: 0 <= i < |cur| ==> IsWordChar(cur[i])
    ensures Finish(Run(State(args, cur, None, false), s)) == args + Words(cur + s)
    decreases |s|, 1
  {
    if |s| == 0 {
      assert cur + s == cur;
      if cur != "" {
        WordsOfWord(cur, "");
        assert cur + "" == cur;
      }
    } else {
      assert IsPlain(s[1..]) by {
        forall i | 0 <= i < |s[1..]| ensures IsBlank(s[1..][i]) || IsWordChar(s[1..][i]) {
          assert s[1..][i] == s[i + 1];
        }
      }
      if IsBlank(s[0]) {
        PlainRunBlank(args, cur, s);
      } else {
        PlainRunWord(args, cur, s);
      }
    }
  }

  /** `PlainRun` when the line starts with a blank: the current word, if any, is pushed. */
  lemma {:induction false} PlainRunBlank(args: seq<string>, cur: string, s: string)
    requires |s| > 0 && IsBlank(s[0]) && IsPlain(s[1..])
    requires forall i :: 0 <= i < |cur| ==> IsWordChar(cur[i])
    ensures Finish(Run(State(args, cur, None, false), s)) == args + Words(cur + s)
    decreases |s|, 0
  {
    var st := State(args, cur, None, false);
    if cur != "" {
      calc {
        Finish(Run(st, s));
        { assert Step(st, s[0]) == State(args + [cur], "", None, false); }
        Finish(Run(State(args + [cur], "", None, false), s[1..]));
        { PlainRun(args + [cur], "", s[1..]); assert "" + s[1..] == s[1..]; }
        (args + [cur]) + Words(s[1..]);
        { WordsAfterBlank(cur, s); }
        args + Words(cur + s);
      }
    } else {
      calc {
        Finish(Run(st, s));
        { assert Step(st, s[0]) == State(args, "", None, false); }
        Finish(Run(State(args, "", None, false), s[1..]));
        { PlainRun(args, "", s[1..]); assert "" + s[1..] == s[1..]; }
        args + Words(s[1..]);
        { assert cur + s == s; }
        args + Words(cur + s);
      }
    }
  }

  /** `PlainRun` when the line starts with a word character: it extends the current word. */
  lemma {:induction false} PlainRunWord(args: seq<string>, cur: string, s: string)
    requires |s| > 0 && IsWordChar(s[0]) && IsPlain(s[1..])
    requires forall i :: 0 <= i < |cur| ==> IsWordChar(cur[i])
    ensures Finish(Run(State(args, cur, None, false), s)) == args + Words(cur + s)
    decreases |s|, 0
  {
    var st := State(args, cur, None, false);
    assert Run(st, s) == Run(Step(st, s[0]), s[1..]);
    assert Step(st, s[0]) == State(args, cur + [s[0]], None, false);
    PlainRun(args, cur + [s[0]], s[1..]);
    assert (cur + [s[0]]) + s[1..] == cur + s;
  }

  /** A word ended by a blank is pushed, and the blank itself adds nothing. */
  lemma WordsAfterBlank(cur: string, s: string)
    requires |cur| > 0 && forall i :: 0 <= i < |cur| ==> IsWordChar(cur[i])
    requires |s| > 0 && IsBlank(s[0])
    ensures Words(cur + s) == [cur] + Words(s[1..])
  {
    WordsOfWord(cur, s);
    assert Words(s) == Words(s[1..]);
  }

  /** A line of words and blanks splits into exactly its words: runs of blanks give no empty tokens. */
  lemma PlainLineIsWords(s: string)
    requires IsPlain(s)
    ensures Tokenize(s) == Words(s)
  {
    PlainRun([], "", s);
    assert "" + s == s;
  }

  /** Outside quotes a newline ends the current token, even an empty one. */
  lemma NewlineAlwaysDelimits(s: string)
    requires Run(Init, s).quote.None? && !Run(Init, s).escaped
    ensures Tokenize(s + "\n") == Run(Init, s).args + [Run(Init, s).current]
  {
    RunConcat(Init, s, "\n");
  }

  /** Inside a quoted section, a run of ordinary characters is appended as it is. */
  lemma {:induction false} QuotedRun(st: State, body: string)
    requires st.quote.Some? && !st.escaped
    requires forall i :: 0 <= i < |body| ==> body[i] != st.quote.value && body[i] != '\\'
    ensures Run(st, body) == State(st.args, st.current + body, st.quote, false)
    decreases |body|
  {
    if |body| == 0 {
      assert st.current + body == st.current;
    } else {
      var st' := Step(st, body[0]);
      assert st' == State(st.args, st.current + [body[0]], st.quote, false);
      QuotedRun(st', body[1..]);
      assert (st.current + [body[0]]) + body[1..] == st.current + body;
    }
  }

  /**
   * A quoted section is one token, even when empty, and it closes only on the
   * quote character that opened it: the other quote character and blanks
   * inside it are kept.
   */
  lemma QuotedSection(q: char, body: string)
    requires q == '\'' || q == '"'
    requires forall i :: 0 <= i < |body| ==> body[i] != q && body[i] != '\\'
    ensures Tokenize([q] + body + [q]) == [body]
  {
    var inQuote := Step(Init, q);
    assert inQuote == State([], "", Some(q), false);
    RunConcat(Init, [q], body + [q]);
    assert [q] + body + [q] == [q] + (body + [q]);
    assert Run(Init, [q]) == inQuote;
    RunConcat(inQuote, body, [q]);
    QuotedRun(inQuote, body);
    assert "" + body == body;
  }

  /** A backslash, in or out of quotes, is dropped and the next character is taken literally. */
  lemma EscapedCharIsLiteral(st: State, c: char)
    requires !st.escaped && QuoteIsQuoteMark(st)
    ensures Run(st, ['\\', c]) == State(st.args, st.current + [c], st.quote, false)
  {
    var after := Step(st, '\\');
    assert after == st.(escaped := true);
    assert ['\\', c][1..] == [c];
    assert Run(st, ['\\', c]) == Run(after, [c]);
    assert [c][1..] == [];
    assert Run(after, [c]) == Step(after, c);
  }

  /** A line ending inside a quote loses the unfinished token. */
  lemma UnterminatedQuoteIsDropped(s: string, q: char, body: string)
    requires q == '\'' || q == '"'
    requires Run(Init, s).quote.None? && !Run(Init, s).escaped
    requires forall i :: 0 <= i < |body| ==> body[i] != q && body[i] != '\\'
    ensures Tokenize(s + [q] + body) == Run(Init, s).args
  {
    var st := Run(Init, s);
    RunConcat(Init, s + [q], body);
    RunConcat(Init, s, [q]);
    assert Run(st, [q]) == Step(st, q);
    QuotedRun(Step(st, q), body);
  }

  /** A line ending in a backslash loses the unfinished token. */
  lemma TrailingBackslashIsDropped(s: string)
    requires !Run(Init, s).escaped
    ensures Tokenize(s + "\\") == Run(Init, s).args
  {
    RunConcat(Init, s, "\\");
    QuoteMarksOnly(Init, s);
  }

  /** Outside quotes no step ever pushes an empty token, except at a newline or a closing quote. */
  lemma {:induction false} NoEmptyTokens(st: State, s: string)
    requires st.quote.None?
    requires forall i :: 0 <= i < |st.args| ==> st.args[i] != ""
    requires forall i :: 0 <= i < |s| ==> s[i] != '\n' && s[i] != '\'' && s[i] != '"'
    ensures Run(st, s).quote.None?
    ensures forall i :: 0 <= i < |Run(st, s).args| ==> Run(st, s).args[i] != ""
    decreases |s|
  {
    if |s| > 0 {
      NoEmptyTokens(Step(st, s[0]), s[1..]);
    }
  }

  /** Without quotes or newlines, no token is empty, however many blanks there are. */
  lemma TokensNonEmpty(s: string)
    requires forall i :: 0 <= i < |s| ==> s[i] != '\n' && s[i] != '\'' && s[i] != '"'
    ensures forall i :: 0 <= i < |Tokenize(s)| ==> Tokenize(s)[i] != ""
  {
    NoEmptyTokens(Init, s);
  }
}

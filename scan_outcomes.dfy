/**
 * What scanning a string literal and a whole source produce: the STRING
 * token and its quirks, the two ways scanning fails, the EOF token at the
 * end, and which tokens carry a literal value.
 */
module ScanOutcomes {
  import opened Wrappers
  import opened Strings
  import opened Tokens
  import opened Diagnostics
  import V = Values
  import opened ScanModel
  import opened ScanProperties

  // ----- Strings -----

  /** A character the string loop reads one at a time: neither the closing quote nor a newline. */
  predicate PlainStringChar(c: char) {
    c != '"' && c != '\n'
  }

  /** Where a run of plain string characters starting at `i` ends. */
  function StringEnd(src: string, i: nat): nat
    requires i <= |src|
  {
    RunEnd(src, i, PlainStringChar)
  }

  /** Without newlines in the way, the string loop reads up to the next quote (or the end), one column per character. */
  lemma {:induction false} StringBodyPlain(src: string, st: ScanState)
    requires st.current <= |src|
    requires var e := StringEnd(src, st.current); e == |src| || src[e] == '"'
    ensures StringBody(src, st) == ReadTo(st, StringEnd(src, st.current))
    decreases |src| - st.current
  {
    if Peek(src, st) != '"' && !IsAtEnd(src, st) {
      var st1 := ReadTo(st, st.current + 1);
      assert StringStep(src, st) == st1 by {
        AdvanceOrdinary(src, st);
      }
      assert StringEnd(src, st1.current) == StringEnd(src, st.current);
      StringBodyPlain(src, st1);
    }
  }

  lemma DispatchQuote(src: string, st: ScanState)
    ensures Dispatch(src, st, '"') == String(src, st)
  {
  }

  lemma ScanTokenQuote(src: string, st: ScanState)
    requires AtLexeme(src, st) && src[st.current] == '"'
    ensures ScanToken(src, st) == String(src, ReadTo(st, st.current + 1))
  {
    ScanTokenOrdinary(src, st);
    DispatchQuote(src, ReadTo(st, st.current + 1));
  }

  lemma {:induction false} StringClosed(src: string, st: ScanState, q: nat)
    requires st.start <= st.current <= q < |src| && st.start < q && src[q] == '"'
    ensures CloseString(src, ReadTo(st, q)) == Ok(AddToken(src, ReadTo(st, q + 1), STRING, Some(V.Str(src[st.start + 1..q]))))
  {
    var st2 := ReadTo(st, q + 1);
    assert Advance(src, ReadTo(st, q)).1 == st2 by {
      AdvanceOrdinary(src, ReadTo(st, q));
    }
    assert Substring(src, st2.start + 1, st2.current - 1) == src[st.start + 1..q];
  }

  /**
   * A quoted text without newlines is one STRING token: the lexeme keeps the
   * quotes, the literal is the text between them, unescaped, and the token
   * is reported at the column of the opening quote.
   */
  lemma StringToken(src: string, st: ScanState)
    requires AtLexeme(src, st) && src[st.current] == '"'
    requires var q := StringEnd(src, st.current + 1); q < |src| && src[q] == '"'
    ensures var q := StringEnd(src, st.current + 1);
      ScanToken(src, st) == Ok(ReadTo(st, q + 1).(tokens := st.tokens
        + [Token(STRING, src[st.current..q + 1], st.line, st.column, Some(V.Str(src[st.current + 1..q])))]))
  {
    var q := StringEnd(src, st.current + 1);
    ScanTokenString(src, st);
    AddTokenAfterRead(src, st, q + 1, STRING, Some(V.Str(src[st.current + 1..q])));
  }

  lemma {:induction false} StringBodyAfterQuote(src: string, st: ScanState)
    requires AtLexeme(src, st) && src[st.current] == '"'
    requires var q := StringEnd(src, st.current + 1); q < |src| && src[q] == '"'
    ensures ScanToken(src, st) == CloseString(src, ReadTo(st, StringEnd(src, st.current + 1)))
  {
    var st1 := ReadTo(st, st.current + 1);
    ScanTokenQuote(src, st);
    StringBodyPlain(src, st1);
    assert ReadTo(st1, StringEnd(src, st1.current)) == ReadTo(st, StringEnd(src, st.current + 1));
  }

  lemma {:induction false} ScanTokenString(src: string, st: ScanState)
    requires AtLexeme(src, st) && src[st.current] == '"'
    requires var q := StringEnd(src, st.current + 1); q < |src| && src[q] == '"'
    ensures var q := StringEnd(src, st.current + 1);
      ScanToken(src, st) == Ok(AddToken(src, ReadTo(st, q + 1), STRING, Some(V.Str(src[st.current + 1..q]))))
  {
    var q := StringEnd(src, st.current + 1);
    StringBodyAfterQuote(src, st);
    StringClosed(src, st, q);
  }


  /** A string whose closing quote never comes fails with `Unterminated string.` */
  lemma UnterminatedString(src: string, st: ScanState)
    requires AtLexeme(src, st) && src[st.current] == '"'
    requires forall j :: st.current < j < |src| ==> src[j] != '"'
    ensures ScanToken(src, st) == Err(Unterminated)
  {
    ScanTokenQuote(src, st);
    var body := StringBody(src, ReadTo(st, st.current + 1));
    assert IsAtEnd(src, body);
  }

  /**
   * A newline inside a string is counted twice, once by the string loop and
   * once by `advance`: the line grows by two, the NEWLINE token carries the
   * line two past the old one, and the character after the newline is read
   * in the same step, whatever it is other than a newline: a quote right after a newline does not
   * close the string.
   */
  lemma StringNewlineCountsTwice(src: string, st: ScanState)
    requires st.current + 1 < |src| && src[st.current] == '\n' && src[st.current + 1] != '\n'
    ensures StringStep(src, st) == st.(current := st.current + 2, line := st.line + 2, column := 2,
      tokens := st.tokens + [NewlineToken(st.line + 2)])
  {
    AdvanceAfterNewline(src, st.(line := st.line + 1));
  }

  /** The quote directly after a newline is read as text, so `"a` newline `"` is unterminated. */
  lemma QuoteAfterNewlineUnterminated()
    ensures Scan("\"a\n\"") == Err(Unterminated)
  {
    var src := "\"a\n\"";
    var st0 := Initial();
    var st1, st2 := ReadTo(st0, 1), ReadTo(st0, 2);
    var st4 := st2.(current := 4, line := 3, column := 2, tokens := st2.tokens + [NewlineToken(3)]);
    assert StringStep(src, st1) == st2 by {
      AdvanceOrdinary(src, st1);
    }
    assert StringStep(src, st2) == st4 by {
      StringNewlineCountsTwice(src, st2);
    }
    assert StringBody(src, st4) == st4;
    assert StringBody(src, st1) == st4;
    assert ScanToken(src, st0) == Err(Unterminated) by {
      ScanTokenQuote(src, st0);
    }
    assert st0.(start := st0.current) == st0;
  }

  // ----- A source that ends in a newline -----

  predicate EndsInNewline(src: string) {
    |src| > 0 && src[|src| - 1] == '\n'
  }

  /** A run of characters that excludes the newline stops before a final newline. */
  lemma RunStopsBeforeNewline(src: string, i: nat, p: char -> bool)
    requires EndsInNewline(src) && i < |src| && !p('\n')
    ensures RunEnd(src, i, p) < |src|
  {
  }

  /** Before a final newline, `advance` either reads a character that is not the last, or reads past the end. */
  lemma AdvanceBeforeEnd(src: string, st: ScanState)
    requires EndsInNewline(src) && st.current < |src|
    ensures Advance(src, st).0 != "" ==> Advance(src, st).1.current < |src|
  {
    AdvanceReads(src, st);
  }

  lemma WordRunBeforeEnd(src: string, st: ScanState)
    requires EndsInNewline(src) && st.current < |src|
    ensures WordRun(src, st).current < |src|
  {
    WordRunEnd(src, st);
    RunStopsBeforeNewline(src, st.current, IsAlphaNumeric);
  }

  lemma DigitRunBeforeEnd(src: string, st: ScanState)
    requires EndsInNewline(src) && st.current < |src|
    ensures DigitRun(src, st).current < |src|
  {
    DigitRunEnd(src, st);
    RunStopsBeforeNewline(src, st.current, IsDigit);
  }

  lemma SkipCommentBeforeEnd(src: string, st: ScanState)
    requires EndsInNewline(src) && st.current < |src|
    ensures SkipComment(src, st).current < |src|
  {
    SkipCommentEnd(src, st);
    RunStopsBeforeNewline(src, st.current, NotNewline);
  }

  lemma NumberBeforeEnd(src: string, st: ScanState)
    requires EndsInNewline(src) && st.current < |src|
    ensures Number(src, st).current < |src|
  {
    var st1 := DigitRun(src, st);
    DigitRunBeforeEnd(src, st);
    FractionEnd(src, st1);
    if st1.current + 1 < |src| && src[st1.current] == '.' && IsDigit(src[st1.current + 1]) {
      RunStopsBeforeNewline(src, st1.current + 1, IsDigit);
    }
  }

  lemma IdentifierBeforeEnd(src: string, st: ScanState)
    requires EndsInNewline(src) && st.current < |src|
    ensures Identifier(src, st).current < |src|
  {
    WordRunBeforeEnd(src, st);
  }

  /** A closed string ends before a final newline; an open one runs on to the end and fails. */
  lemma StringBeforeEnd(src: string, st: ScanState)
    requires EndsInNewline(src) && st.current <= |src|
    ensures String(src, st).Ok? ==> String(src, st).value.current < |src|
  {
    var body := StringBody(src, st);
    if !IsAtEnd(src, body) {
      AdvanceOrdinary(src, body);
    }
  }

  lemma OperatorBeforeEnd(src: string, st: ScanState, one: TokenType, two: TokenType)
    requires EndsInNewline(src) && st.current < |src|
    ensures Operator(src, st, one, two).current < |src|
  {
  }

  lemma SlashBeforeEnd(src: string, st: ScanState)
    requires EndsInNewline(src) && st.current < |src|
    ensures var (m, st1) := Match(src, st, '/');
      m ==> SkipComment(src, st1).current < |src|
  {
    var (m, st1) := Match(src, st, '/');
    if m {
      SkipCommentBeforeEnd(src, st1);
    }
  }

  lemma DispatchOperator(src: string, st: ScanState, c: char)
    requires OperatorKinds(c).Some?
    ensures Dispatch(src, st, c) == Ok(Operator(src, st, OperatorKinds(c).value.0, OperatorKinds(c).value.1))
  {
  }

  lemma DispatchSlash(src: string, st: ScanState)
    ensures var (m, st1) := Match(src, st, '/');
      Dispatch(src, st, '/') == if m then Ok(SkipComment(src, st1)) else Ok(AddToken(src, st, SLASH, None))
  {
  }

  /** The remaining characters: white space reads nothing more, and anything else fails. */
  lemma DispatchRest(src: string, st: ScanState, c: char)
    requires SingleKind(c).None? && OperatorKinds(c).None? && c != '/' && c != '"' && !IsDigit(c) && !IsAlpha(c)
    ensures Dispatch(src, st, c).Ok? ==> Dispatch(src, st, c).value == st
  {
  }

  lemma DispatchBeforeEnd(src: string, st: ScanState, c: char)
    requires EndsInNewline(src) && st.current < |src|
    ensures Dispatch(src, st, c).Ok? ==> Dispatch(src, st, c).value.current < |src|
  {
    if SingleKind(c).Some? {
      assert Dispatch(src, st, c) == Ok(AddToken(src, st, SingleKind(c).value, None));
    } else if OperatorKinds(c).Some? {
      DispatchOperator(src, st, c);
      OperatorBeforeEnd(src, st, OperatorKinds(c).value.0, OperatorKinds(c).value.1);
    } else if c == '/' {
      DispatchSlash(src, st);
      SlashBeforeEnd(src, st);
    } else if c == '"' {
      DispatchQuote(src, st);
      StringBeforeEnd(src, st);
    } else if IsDigit(c) {
      DispatchDigit(src, st, c);
      NumberBeforeEnd(src, st);
    } else if IsAlpha(c) {
      DispatchWord(src, st, c);
      IdentifierBeforeEnd(src, st);
    } else {
      DispatchRest(src, st, c);
    }
  }

  /** Before a final newline, every lexeme either fails or stops short of the last character. */
  lemma ScanTokenBeforeEnd(src: string, st: ScanState)
    requires EndsInNewline(src) && st.current < |src|
    ensures ScanToken(src, st).Ok? ==> ScanToken(src, st).value.current < |src|
  {
    AdvanceBeforeEnd(src, st);
    var (s, st1) := Advance(src, st);
    if s != "" {
      DispatchBeforeEnd(src, st1, s[0]);
    }
  }

  lemma {:induction false} ScanLoopFails(src: string, st: ScanState)
    requires EndsInNewline(src) && st.current < |src|
    ensures ScanLoop(src, st).Err?
    decreases |src| - st.current
  {
    var st0 := st.(start := st.current);
    ScanTokenBeforeEnd(src, st0);
    var r := ScanToken(src, st0);
    if r.Ok? {
      ScanLoopFails(src, r.value);
    }
  }

  /**
   * A source that ends in a newline never scans: the final newline makes
   * `advance` read past the end, which fails as an unexpected empty
   * character unless a string or another character failed first.
   */
  lemma TrailingNewlineFails(src: string)
    requires EndsInNewline(src)
    ensures Scan(src).Err?
  {
    ScanLoopFails(src, Initial());
  }

  /** The smallest case: a lone newline fails with the empty character, reported on line 2. */
  lemma LoneNewlineFails()
    ensures Scan("\n") == Err(Illegal("Unexpected character: ''", Token(ILLEGAL, "", 2, 1, None)))
  {
    var st1 := ScanState(0, 2, 2, 2, [NewlineToken(2)]);
    AdvanceThroughNewlines("\n", Initial());
    assert RunEnd("\n", 0, IsNewline) == 1;
    assert NewlineTokens(1, 1) == [NewlineToken(2)];
    var a := Advance("\n", Initial());
    assert a.0 == "";
    assert a.1.start == 0;
    assert a.1.current == 2;
    assert a.1.line == 2;
    assert a.1.column == 2;
    assert a.1.tokens == [NewlineToken(2)];
    assert Advance("\n", Initial()) == ("", st1);
    assert ScanToken("\n", Initial()) == Err(IllegalCharacter("", st1));
    assert Initial().(start := 0) == Initial();
    assert ScanLoop("\n", Initial()) == Err(IllegalCharacter("", st1));
    assert "Unexpected character: '" + "" + "'" == "Unexpected character: ''";
  }

  // ----- The end of the scan -----

  /**
   * A successful scan stops at the end of the source and ends with one EOF
   * token at the line and column it stopped at; the tokens before it are the
   * tokens of the loop.
   */
  lemma ScanEndsWithEof(src: string, st: ScanState)
    requires ScanTokens(src, st).Ok?
    ensures var r := ScanTokens(src, st).value;
      ScanLoop(src, st).Ok? && IsAtEnd(src, r)
      && r.tokens == ScanLoop(src, st).value.tokens + [Token(EOF, "", r.line, r.column, None)]
  {
  }

  /**
   * Scanning again after a successful scan appends exactly one more EOF token
   * and changes nothing else: the earlier tokens stay as they are.
   */
  lemma RescanAppendsEof(src: string, st: ScanState)
    requires ScanTokens(src, st).Ok?
    ensures var r := ScanTokens(src, st).value;
      ScanTokens(src, r) == Ok(r.(tokens := r.tokens + [Token(EOF, "", r.line, r.column, None)]))
  {
    ScanEndsWithEof(src, st);
  }

  // ----- Literal values -----

  /**
   * A token carries a literal only as a scanned number, whose value is its
   * own lexeme, or as a scanned string.
   */
  predicate LiteralFits(t: Token) {
    t.literal.Some? ==>
      (t.kind == NUMBER && t.literal.value == V.Number(t.lexeme)) || (t.kind == STRING && t.literal.value.Str?)
  }

  predicate Disciplined(ts: seq<Token>) {
    forall i :: 0 <= i < |ts| ==> LiteralFits(ts[i])
  }

  lemma DisciplinedAppend(ts: seq<Token>, t: Token)
    requires Disciplined(ts) && LiteralFits(t)
    ensures Disciplined(ts + [t])
  {
    assert forall i :: 0 <= i < |ts| ==> (ts + [t])[i] == ts[i];
  }

  lemma AddTokenKeeps(src: string, st: ScanState, kind: TokenType, literal: Option<V.Value>)
    requires Disciplined(st.tokens)
    requires literal.Some? ==> (kind == NUMBER && literal.value == V.Number(Lexeme(src, st))) || (kind == STRING && literal.value.Str?)
    ensures Disciplined(AddToken(src, st, kind, literal).tokens)
  {
    DisciplinedAppend(st.tokens, Token(kind, Lexeme(src, st), st.line, st.column - |Lexeme(src, st)|, literal));
  }

  lemma {:induction false} AdvanceKeeps(src: string, st: ScanState)
    requires Disciplined(st.tokens)
    ensures Disciplined(Advance(src, st).1.tokens)
    decreases |src| - st.current
  {
    if CharAt(src, st.current) == "\n" {
      DisciplinedAppend(st.tokens, NewlineToken(st.line + 1));
      AdvanceKeeps(src, st.(current := st.current + 1, line := st.line + 1, column := 1,
                            tokens := st.tokens + [NewlineToken(st.line + 1)]));
    }
  }

  lemma {:induction false} StringBodyKeeps(src: string, st: ScanState)
    requires Disciplined(st.tokens)
    ensures Disciplined(StringBody(src, st).tokens)
    decreases |src| - st.current
  {
    if Peek(src, st) != '"' && !IsAtEnd(src, st) {
      AdvanceKeeps(src, CountNewline(src, st));
      StringBodyKeeps(src, StringStep(src, st));
    }
  }

  lemma StringKeeps(src: string, st: ScanState)
    requires Disciplined(st.tokens)
    ensures String(src, st).Ok? ==> Disciplined(String(src, st).value.tokens)
  {
    var body := StringBody(src, st);
    StringBodyKeeps(src, st);
    if !IsAtEnd(src, body) {
      var st2 := Advance(src, body).1;
      AdvanceKeeps(src, body);
      AddTokenKeeps(src, st2, STRING, Some(V.Str(Substring(src, st2.start + 1, st2.current - 1))));
    }
  }

  lemma NumberKeeps(src: string, st: ScanState)
    requires Disciplined(st.tokens)
    ensures Disciplined(Number(src, st).tokens)
  {
    var st1 := NumberRun(src, st);
    AddTokenKeeps(src, st1, NUMBER, Some(V.Number(Lexeme(src, st1))));
  }

  lemma IdentifierKeeps(src: string, st: ScanState)
    requires Disciplined(st.tokens)
    ensures Disciplined(Identifier(src, st).tokens)
  {
    var st1 := WordRun(src, st);
    AddTokenKeeps(src, st1, WordKind(Lexeme(src, st1)), None);
  }

  lemma OperatorKeeps(src: string, st: ScanState, one: TokenType, two: TokenType)
    requires Disciplined(st.tokens)
    ensures Disciplined(Operator(src, st, one, two).tokens)
  {
    var (m, st1) := Match(src, st, '=');
    AddTokenKeeps(src, st1, if m then two else one, None);
  }

  lemma DispatchKeeps(src: string, st: ScanState, c: char)
    requires Disciplined(st.tokens)
    ensures Dispatch(src, st, c).Ok? ==> Disciplined(Dispatch(src, st, c).value.tokens)
  {
    if SingleKind(c).Some? {
      assert Dispatch(src, st, c) == Ok(AddToken(src, st, SingleKind(c).value, None));
      AddTokenKeeps(src, st, SingleKind(c).value, None);
    } else if OperatorKinds(c).Some? {
      DispatchOperator(src, st, c);
      OperatorKeeps(src, st, OperatorKinds(c).value.0, OperatorKinds(c).value.1);
    } else if c == '/' {
      DispatchSlash(src, st);
      AddTokenKeeps(src, st, SLASH, None);
    } else if c == '"' {
      DispatchQuote(src, st);
      StringKeeps(src, st);
    } else if IsDigit(c) {
      DispatchDigit(src, st, c);
      NumberKeeps(src, st);
    } else if IsAlpha(c) {
      DispatchWord(src, st, c);
      IdentifierKeeps(src, st);
    } else {
      DispatchRest(src, st, c);
    }
  }

  lemma ScanTokenKeeps(src: string, st: ScanState)
    requires Disciplined(st.tokens)
    ensures ScanToken(src, st).Ok? ==> Disciplined(ScanToken(src, st).value.tokens)
  {
    AdvanceKeeps(src, st);
    var (s, st1) := Advance(src, st);
    if s != "" {
      DispatchKeeps(src, st1, s[0]);
    }
  }

  lemma {:induction false} ScanLoopKeeps(src: string, st: ScanState)
    requires Disciplined(st.tokens)
    ensures ScanLoop(src, st).Ok? ==> Disciplined(ScanLoop(src, st).value.tokens)
    decreases |src| - st.current
  {
    if !IsAtEnd(src, st) {
      var st0 := st.(start := st.current);
      ScanTokenKeeps(src, st0);
      var r := ScanToken(src, st0);
      if r.Ok? {
        ScanLoopKeeps(src, r.value);
      }
    }
  }

  /**
   * Every token of a successful scan carries a literal only if it is a
   * scanned number (the value of its own lexeme) or a scanned string. NUMBER
   * and STRING tokens may still carry none: see NumberWord and StringWord.
   */
  lemma ScanLiteralsFit(src: string)
    requires Scan(src).Ok?
    ensures Disciplined(Scan(src).value)
  {
    ScanLoopKeeps(src, Initial());
    var st := ScanLoop(src, Initial()).value;
    DisciplinedAppend(st.tokens, EofToken(st));
  }

  /** The word `number` scans as the kind NUMBER, with no literal value. */
  lemma NumberWord()
    ensures WordKind("number") == NUMBER
  {
    assert Upper("number") == "NUMBER";
    WordKindIgnoresCase("number", NUMBER);
  }

  /** The word `string` scans as the kind STRING, with no literal value. */
  lemma StringWord()
    ensures WordKind("string") == STRING
  {
    assert Upper("string") == "STRING";
    WordKindIgnoresCase("string", STRING);
  }
}

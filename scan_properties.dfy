/**
 * What scanning does, stated about the functions of ScanModel: how the
 * scanner reads newlines, operators, white space, comments, numbers, words
 * and strings, where it fails, and what every successful scan ends with.
 */
module ScanProperties {
  import opened Wrappers
  import opened Strings
  import opened Tokens
  import opened Diagnostics
  import V = Values
  import opened ScanModel

  // ----- Runs of characters -----

  /** The end of the run of characters satisfying `p` that starts at `i`. */
  function RunEnd(src: string, i: nat, p: char -> bool): (e: nat)
    requires i <= |src|
    ensures i <= e <= |src|
    ensures forall j :: i <= j < e ==> p(src[j])
    ensures e == |src| || !p(src[e])
    decreases |src| - i
  {
    if i < |src| && p(src[i]) then RunEnd(src, i + 1, p) else i
  }

  predicate NotNewline(c: char) {
    c != '\n'
  }

  /** Where a digit run starting at `i` ends. */
  function DigitEnd(src: string, i: nat): nat
    requires i <= |src|
  {
    RunEnd(src, i, IsDigit)
  }

  /** Where a run of letters, digits and `_` starting at `i` ends. */
  function WordEnd(src: string, i: nat): nat
    requires i <= |src|
  {
    RunEnd(src, i, IsAlphaNumeric)
  }

  /** The position of the first newline at or after `i`, or the end of the source. */
  function LineEnd(src: string, i: nat): nat
    requires i <= |src|
  {
    RunEnd(src, i, NotNewline)
  }

  /**
   * `advance` returns the character just before the new cursor, never a
   * newline: newlines are consumed and counted, and a character is read
   * after them.
   */
  lemma {:induction false} AdvanceReads(src: string, st: ScanState)
    ensures var (c, st1) := Advance(src, st);
      c == CharAt(src, st1.current - 1) && c != "\n"
    decreases |src| - st.current
  {
    if CharAt(src, st.current) == "\n" {
      AdvanceReads(src, st.(current := st.current + 1, line := st.line + 1, column := 1,
                            tokens := st.tokens + [NewlineToken(st.line + 1)]));
    }
  }

  /** Reading a character other than a newline moves one position and one column. */
  lemma AdvanceOrdinary(src: string, st: ScanState)
    requires st.current < |src| && src[st.current] != '\n'
    ensures Advance(src, st) == ([src[st.current]], st.(current := st.current + 1, column := st.column + 1))
  {
  }

  /** The digit loop stops at the end of the digit run, one column per digit. */
  lemma {:induction false} DigitRunEnd(src: string, st: ScanState)
    requires st.current <= |src|
    ensures var e := DigitEnd(src, st.current);
      DigitRun(src, st) == st.(current := e, column := st.column + (e - st.current))
    decreases |src| - st.current
  {
    if IsDigit(Peek(src, st)) {
      AdvanceOrdinary(src, st);
      DigitRunEnd(src, Advance(src, st).1);
    }
  }

  /** The word loop stops at the end of the run of letters, digits and `_`. */
  lemma {:induction false} WordRunEnd(src: string, st: ScanState)
    requires st.current <= |src|
    ensures var e := WordEnd(src, st.current);
      WordRun(src, st) == st.(current := e, column := st.column + (e - st.current))
    decreases |src| - st.current
  {
    if IsAlphaNumeric(Peek(src, st)) {
      AdvanceOrdinary(src, st);
      WordRunEnd(src, Advance(src, st).1);
    }
  }

  /** The comment loop stops just before the next newline, or at the end. */
  lemma {:induction false} SkipCommentEnd(src: string, st: ScanState)
    requires st.current <= |src|
    ensures var e := LineEnd(src, st.current);
      SkipComment(src, st) == st.(current := e, column := st.column + (e - st.current))
    decreases |src| - st.current
  {
    if Peek(src, st) != '\n' && !IsAtEnd(src, st) {
      AdvanceOrdinary(src, st);
      SkipCommentEnd(src, Advance(src, st).1);
    }
  }

  // ----- Newlines -----

  predicate IsNewline(c: char) {
    c == '\n'
  }

  /** The NEWLINE tokens for `n` newlines read on line `line`: lines `line + 1` to `line + n`, column 1. */
  function NewlineTokens(line: int, n: nat): (r: seq<Token>)
    ensures |r| == n
    ensures forall i :: 0 <= i < n ==> r[i] == NewlineToken(line + 1 + i)
    decreases n
  {
    if n == 0 then [] else [NewlineToken(line + 1)] + NewlineTokens(line + 1, n - 1)
  }

  /**
   * `advance` reads through the run of `n` newlines under the cursor: each
   * bumps the line and pushes a NEWLINE token for the new line at column 1,
   * and the character after the run is returned, at column 2 when a newline
   * was read.
   */
  lemma {:induction false} AdvanceThroughNewlines(src: string, st: ScanState)
    requires st.current <= |src|
    ensures var n := RunEnd(src, st.current, IsNewline) - st.current;
      Advance(src, st) == (CharAt(src, st.current + n),
        st.(current := st.current + n + 1, line := st.line + n,
            column := if n == 0 then st.column + 1 else 2,
            tokens := st.tokens + NewlineTokens(st.line, n)))
    decreases |src| - st.current
  {
    if st.current < |src| && src[st.current] == '\n' {
      var st1 := st.(current := st.current + 1, line := st.line + 1, column := 1,
                     tokens := st.tokens + [NewlineToken(st.line + 1)]);
      AdvanceThroughNewlines(src, st1);
      assert st.tokens + [NewlineToken(st.line + 1)] + NewlineTokens(st.line + 1, RunEnd(src, st1.current, IsNewline) - st1.current)
          == st.tokens + NewlineTokens(st.line, RunEnd(src, st.current, IsNewline) - st.current);
    } else {
      assert RunEnd(src, st.current, IsNewline) == st.current;
      assert st.tokens + NewlineTokens(st.line, 0) == st.tokens;
    }
  }

  // ----- One token -----

  /** The scanner is at the beginning of a lexeme, as `scanTokens` places it. */
  predicate AtLexeme(src: string, st: ScanState) {
    st.start == st.current < |src|
  }

  /** The one-character tokens map one-to-one to their kinds. */
  lemma SingleKindInjective(a: char, b: char)
    ensures SingleKind(a).Some? && SingleKind(a) == SingleKind(b) ==> a == b
  {
  }

  /** The lexeme of a token is the source text between `start` and `current`. */
  lemma LexemeIsSlice(src: string, st: ScanState)
    requires st.start <= st.current <= |src|
    ensures Lexeme(src, st) == src[st.start..st.current]
  {
  }

  /**
   * `match` consumes exactly the character `advance` would read, on the same
   * line and with the same tokens, but leaves the column one short of where
   * `advance` puts it; when the character is not there it changes nothing.
   */
  lemma MatchAgainstAdvance(src: string, st: ScanState, expected: char)
    ensures st.current < |src| && src[st.current] == expected && expected != '\n' ==>
      var m := Match(src, st, expected);
      var a := Advance(src, st);
      && m.0 && a.0 == [expected]
      && m.1.current == a.1.current && m.1.line == a.1.line && m.1.tokens == a.1.tokens
      && m.1.column == st.column && a.1.column == st.column + 1
    ensures !(st.current < |src| && src[st.current] == expected) ==> Match(src, st, expected) == (false, st)
  {
  }

  /**
   * `addToken` appends exactly one token, whose text is the source between
   * `start` and `current` and whose column is the running column less that
   * text's length; the cursor, line and column stay where they are.
   */
  lemma AddTokenSlice(src: string, st: ScanState, kind: TokenType, literal: Option<V.Value>)
    requires st.start <= st.current <= |src|
    ensures var r := AddToken(src, st, kind, literal);
      && |r.tokens| == |st.tokens| + 1 && r.tokens[..|st.tokens|] == st.tokens
      && r.tokens[|st.tokens|] == Token(kind, src[st.start..st.current], st.line, st.column - (st.current - st.start), literal)
      && r.start == st.start && r.current == st.current && r.line == st.line && r.column == st.column
  {
    LexemeIsSlice(src, st);
  }

  /** `( ) { } [ ] , - + *` each give their one-character token at the running column. */
  lemma SingleCharacterToken(src: string, st: ScanState)
    requires AtLexeme(src, st) && SingleKind(src[st.current]).Some?
    ensures var c := src[st.current];
      ScanToken(src, st) == Ok(st.(current := st.current + 1, column := st.column + 1,
        tokens := st.tokens + [Token(SingleKind(c).value, [c], st.line, st.column, None)]))
  {
    var c := src[st.current];
    AdvanceOrdinary(src, st);
    var st1 := st.(current := st.current + 1, column := st.column + 1);
    LexemeIsSlice(src, st1);
    assert src[st.current..st.current + 1] == [c];
    assert ScanToken(src, st) == Ok(AddToken(src, st1, SingleKind(c).value, None));
  }

  /** The kinds of `!`, `=`, `<` and `>`, alone and followed by `=`. */
  function OperatorKinds(c: char): Option<(TokenType, TokenType)> {
    if c == '!' then Some((BANG, BANG_EQUAL))
    else if c == '=' then Some((EQUAL, EQUAL_EQUAL))
    else if c == '<' then Some((LESS, LESS_EQUAL))
    else if c == '>' then Some((GREATER, GREATER_EQUAL))
    else None
  }

  /**
   * `!`, `=`, `<` and `>` take their two-character kind exactly when `=`
   * follows. The two-character token is reported one column left of where it
   * starts, and the running column moves by one only, so every later token on
   * the line is reported one column further left.
   */
  lemma OperatorToken(src: string, st: ScanState)
    requires AtLexeme(src, st) && OperatorKinds(src[st.current]).Some?
    ensures var c := src[st.current];
      var (one, two) := OperatorKinds(c).value;
      if st.current + 1 < |src| && src[st.current + 1] == '=' then
        ScanToken(src, st) == Ok(st.(current := st.current + 2, column := st.column + 1,
          tokens := st.tokens + [Token(two, [c, '='], st.line, st.column - 1, None)]))
      else
        ScanToken(src, st) == Ok(st.(current := st.current + 1, column := st.column + 1,
          tokens := st.tokens + [Token(one, [c], st.line, st.column, None)]))
  {
    var c := src[st.current];
    AdvanceOrdinary(src, st);
    var st1 := st.(current := st.current + 1, column := st.column + 1);
    assert ScanToken(src, st) == Ok(Operator(src, st1, OperatorKinds(c).value.0, OperatorKinds(c).value.1));
    if st.current + 1 < |src| && src[st.current + 1] == '=' {
      var st2 := st1.(current := st.current + 2);
      LexemeIsSlice(src, st2);
      assert src[st.current..st.current + 2] == [c, '='];
    } else {
      LexemeIsSlice(src, st1);
      assert src[st.current..st.current + 1] == [c];
    }
  }

  /** Space, carriage return and tab emit nothing. */
  lemma WhitespaceSkipped(src: string, st: ScanState)
    requires AtLexeme(src, st) && src[st.current] in {' ', '\r', '\t'}
    ensures ScanToken(src, st) == Ok(st.(current := st.current + 1, column := st.column + 1))
  {
    AdvanceOrdinary(src, st);
    var c := src[st.current];
    assert SingleKind(c).None?;
  }

  /** A `/` not followed by `/` is SLASH. */
  lemma SlashToken(src: string, st: ScanState)
    requires AtLexeme(src, st) && src[st.current] == '/'
    requires !(st.current + 1 < |src| && src[st.current + 1] == '/')
    ensures ScanToken(src, st) == Ok(st.(current := st.current + 1, column := st.column + 1,
      tokens := st.tokens + [Token(SLASH, "/", st.line, st.column, None)]))
  {
    AdvanceOrdinary(src, st);
    var st1 := st.(current := st.current + 1, column := st.column + 1);
    assert ScanToken(src, st) == Ok(AddToken(src, st1, SLASH, None));
    LexemeIsSlice(src, st1);
    assert src[st.current..st.current + 1] == "/";
  }

  /** `//` discards everything up to, not including, the next newline, and emits nothing. */
  lemma CommentSkipped(src: string, st: ScanState)
    requires AtLexeme(src, st) && st.current + 1 < |src| && src[st.current] == '/' && src[st.current + 1] == '/'
    ensures var e := LineEnd(src, st.current + 2);
      ScanToken(src, st) == Ok(st.(current := e, column := st.column + 1 + (e - (st.current + 2))))
  {
    AdvanceOrdinary(src, st);
    var st2 := st.(current := st.current + 2, column := st.column + 1);
    assert ScanToken(src, st) == Ok(SkipComment(src, st2));
    SkipCommentEnd(src, st2);
  }

  /** A character that starts no token: a newline, a one-character token, an operator, white space, a quote, a letter or a digit. */
  predicate StartsToken(c: char) {
    c == '\n' || SingleKind(c).Some? || OperatorKinds(c).Some? || c in {'/', ' ', '\r', '\t', '"'}
    || IsDigit(c) || IsAlpha(c)
  }

  /** Any other character fails, with an ILLEGAL token at the character's own column. */
  lemma IllegalCharacterFails(src: string, st: ScanState)
    requires AtLexeme(src, st) && !StartsToken(src[st.current])
    ensures var c := src[st.current];
      ScanToken(src, st) == Err(Illegal("Unexpected character: '" + [c] + "'", Token(ILLEGAL, [c], st.line, st.column, None)))
  {
    AdvanceOrdinary(src, st);
    var st1 := st.(current := st.current + 1, column := st.column + 1);
    assert ScanToken(src, st) == Err(IllegalCharacter([src[st.current]], st1));
  }

  /** Where a number lexeme starting at `i` ends: its digits, then `.` and digits only if a digit follows the `.`. */
  function NumberEnd(src: string, i: nat): (e: nat)
    requires i <= |src|
    ensures DigitEnd(src, i) <= e <= |src|
  {
    var d := DigitEnd(src, i);
    if d + 1 < |src| && src[d] == '.' && IsDigit(src[d + 1]) then DigitEnd(src, d + 1) else d
  }

  /**
   * A number lexeme is a maximal digit run, then a `.` and a maximal digit run
   * when a digit follows the `.`; a `.` without a digit after it is not part of
   * the number.
   */
  lemma NumberLexemeShape(src: string, i: nat)
    requires i < |src| && IsDigit(src[i])
    ensures var d, e := DigitEnd(src, i), NumberEnd(src, i);
      i < d && (forall j :: i <= j < d ==> IsDigit(src[j]))
      && (e == d <==> !(d + 1 < |src| && src[d] == '.' && IsDigit(src[d + 1])))
      && (e != d ==> src[d] == '.' && d + 1 < e && forall j :: d < j < e ==> IsDigit(src[j]))
      && (e == |src| || !IsDigit(src[e]))
  {
  }

  lemma DispatchWord(src: string, st: ScanState, c: char)
    requires IsAlpha(c)
    ensures Dispatch(src, st, c) == Ok(Identifier(src, st))
  {
    assert SingleKind(c).None?;
    assert c != '!' && c != '=' && c != '<' && c != '>' && c != '/' && c != ' ' && c != '\r' && c != '\t' && c != '"';
  }

  lemma DispatchDigit(src: string, st: ScanState, c: char)
    requires IsDigit(c)
    ensures Dispatch(src, st, c) == Ok(Number(src, st))
  {
    assert SingleKind(c).None?;
  }

  lemma ScanTokenOrdinary(src: string, st: ScanState)
    requires st.current < |src| && src[st.current] != '\n'
    ensures ScanToken(src, st) == Dispatch(src, st.(current := st.current + 1, column := st.column + 1), src[st.current])
  {
    AdvanceOrdinary(src, st);
  }

  /** The state after reading on from `start` to `e` on one line. */
  function ReadTo(st: ScanState, e: int): ScanState
    requires st.current <= e
  {
    st.(current := e, column := st.column + (e - st.current))
  }

  /** A token added after reading on one line from `start` to `e` has the text read as its lexeme and the start's column. */
  lemma AddTokenAfterRead(src: string, st: ScanState, e: nat, kind: TokenType, literal: Option<V.Value>)
    requires st.start == st.current <= e <= |src|
    ensures AddToken(src, ReadTo(st, e), kind, literal)
         == ReadTo(st, e).(tokens := st.tokens + [Token(kind, src[st.current..e], st.line, st.column, literal)])
  {
    LexemeIsSlice(src, ReadTo(st, e));
  }

  lemma FractionEnd(src: string, st: ScanState)
    requires st.current <= |src|
    ensures var d := st.current;
      Fraction(src, st) == ReadTo(st, if d + 1 < |src| && src[d] == '.' && IsDigit(src[d + 1]) then DigitEnd(src, d + 1) else d)
  {
    var d := st.current;
    if d + 1 < |src| && src[d] == '.' && IsDigit(src[d + 1]) {
      AdvanceOrdinary(src, st);
      DigitRunEnd(src, ReadTo(st, d + 1));
    }
  }

  lemma NumberRunEnd(src: string, st: ScanState)
    requires AtLexeme(src, st) && IsDigit(src[st.current])
    ensures NumberRun(src, ReadTo(st, st.current + 1)) == ReadTo(st, NumberEnd(src, st.current))
  {
    DigitsAfterFirst(src, st);
    FractionEnd(src, ReadTo(st, DigitEnd(src, st.current)));
  }

  lemma DigitsAfterFirst(src: string, st: ScanState)
    requires AtLexeme(src, st) && IsDigit(src[st.current])
    ensures DigitRun(src, ReadTo(st, st.current + 1)) == ReadTo(st, DigitEnd(src, st.current))
  {
    var st1 := ReadTo(st, st.current + 1);
    assert DigitEnd(src, st1.current) == DigitEnd(src, st.current);
    DigitRunEnd(src, st1);
  }

  /** A digit starts a NUMBER token whose literal is the number its lexeme denotes. */
  lemma NumberToken(src: string, st: ScanState)
    requires AtLexeme(src, st) && IsDigit(src[st.current])
    ensures var e := NumberEnd(src, st.current);
      var text := src[st.current..e];
      ScanToken(src, st) == Ok(ReadTo(st, e).(tokens := st.tokens + [Token(NUMBER, text, st.line, st.column, Some(V.Number(text)))]))
  {
    var st1 := ReadTo(st, st.current + 1);
    var e := NumberEnd(src, st.current);
    ScanTokenOrdinary(src, st);
    DispatchDigit(src, st1, src[st.current]);
    NumberRunEnd(src, st);
    LexemeIsSlice(src, ReadTo(st, e));
    AddTokenAfterRead(src, st, e, NUMBER, Some(V.Number(src[st.current..e])));
  }

  lemma IdentifierEnd(src: string, st: ScanState)
    requires AtLexeme(src, st) && IsAlpha(src[st.current])
    ensures var e := WordEnd(src, st.current);
      Identifier(src, ReadTo(st, st.current + 1)) == AddToken(src, ReadTo(st, e), WordKind(src[st.current..e]), None)
  {
    var st1 := ReadTo(st, st.current + 1);
    var e := WordEnd(src, st.current);
    assert WordEnd(src, st1.current) == e;
    WordRunEnd(src, st1);
    LexemeIsSlice(src, ReadTo(st, e));
  }

  /** A letter or `_` starts a word whose kind is the kind named by its upper-cased text, else IDENTIFIER. */
  lemma WordToken(src: string, st: ScanState)
    requires AtLexeme(src, st) && IsAlpha(src[st.current])
    ensures var e := WordEnd(src, st.current);
      var text := src[st.current..e];
      ScanToken(src, st) == Ok(ReadTo(st, e).(tokens := st.tokens + [Token(WordKind(text), text, st.line, st.column, None)]))
  {
    var e := WordEnd(src, st.current);
    ScanTokenOrdinary(src, st);
    DispatchWord(src, ReadTo(st, st.current + 1), src[st.current]);
    IdentifierEnd(src, st);
    AddTokenAfterRead(src, st, e, WordKind(src[st.current..e]), None);
  }

  /** Reserved words are case-insensitive, and every kind name is one: `eof` and `equal` scan as EOF and EQUAL. */
  lemma WordKindIgnoresCase(text: string, k: TokenType)
    requires Upper(text) == Name(k)
    ensures WordKind(text) == k
  {
    LookupName(k);
  }

  /** A word that upper-cases to no kind name is an IDENTIFIER. */
  lemma WordKindIdentifier(text: string)
    requires forall k :: Name(k) != Upper(text)
    ensures WordKind(text) == IDENTIFIER
  {
    LookupIff(Upper(text));
  }

  /** The word `eof` scans as the end-of-input kind EOF. */
  lemma EofWord()
    ensures WordKind("eof") == EOF
  {
    assert Upper("eof") == "EOF";
    WordKindIgnoresCase("eof", EOF);
  }

  /** The word `equal` scans as the operator kind EQUAL, like `=`. */
  lemma EqualWord()
    ensures WordKind("equal") == EQUAL
  {
    assert Upper("equal") == "EQUAL";
    WordKindIgnoresCase("equal", EQUAL);
  }

  /** A lexeme that begins with a newline is no kind name, so it is an IDENTIFIER. */
  lemma NewlineWordIsIdentifier(text: string)
    requires |text| > 0 && text[0] == '\n'
    ensures WordKind(text) == IDENTIFIER
  {
    assert Upper(text)[0] == '\n';
    forall k ensures Name(k) != Upper(text) {
      NameCapitalised(k);
      if |Name(k)| > 0 {
        assert 'A' <= Name(k)[0] <= 'Z' || Name(k)[0] == '_';
      }
    }
    WordKindIdentifier(text);
  }

  /**
   * A word directly after a newline: the NEWLINE token comes first, and the
   * word's lexeme keeps the newline, so it is an IDENTIFIER (even `function` or
   * `const`) reported at column 0.
   */
  lemma WordAfterNewline(src: string, st: ScanState)
    requires st.start == st.current && st.current + 1 < |src|
    requires src[st.current] == '\n' && IsAlpha(src[st.current + 1])
    ensures var e := WordEnd(src, st.current + 1);
      ScanToken(src, st) == Ok(st.(current := e, line := st.line + 1, column := e - st.current,
        tokens := st.tokens + [NewlineToken(st.line + 1)] + [Token(IDENTIFIER, src[st.current..e], st.line + 1, 0, None)]))
  {
    var e := WordEnd(src, st.current + 1);
    ScanTokenWordAfterNewline(src, st);
    IdentifierAfterNewline(src, st);
    AfterNewlineTokens(st, e, e - st.current, Token(IDENTIFIER, src[st.current..e], st.line + 1, 0, None));
  }

  /** The state after reading a newline and the character after it. */
  function AfterNewline(st: ScanState): ScanState {
    st.(current := st.current + 2, line := st.line + 1, column := 2,
        tokens := st.tokens + [NewlineToken(st.line + 1)])
  }

  /** A single newline followed by another character: one NEWLINE token, and that character is read. */
  lemma AdvanceAfterNewline(src: string, st: ScanState)
    requires st.current + 1 < |src| && src[st.current] == '\n' && src[st.current + 1] != '\n'
    ensures Advance(src, st) == ([src[st.current + 1]], AfterNewline(st))
  {
    AdvanceThroughNewlines(src, st);
    assert RunEnd(src, st.current + 1, IsNewline) == st.current + 1;
    assert NewlineTokens(st.line, 1) == [NewlineToken(st.line + 1)];
  }

  lemma ScanTokenAfterNewline(src: string, st: ScanState)
    requires st.current + 1 < |src| && src[st.current] == '\n' && src[st.current + 1] != '\n'
    ensures ScanToken(src, st) == Dispatch(src, AfterNewline(st), src[st.current + 1])
  {
    AdvanceAfterNewline(src, st);
  }

  lemma AfterNewlineTokens(st: ScanState, e: nat, column: int, t: Token)
    ensures var st1 := AfterNewline(st);
      st1.(current := e, column := column, tokens := st1.tokens + [t])
      == st.(current := e, line := st.line + 1, column := column, tokens := st.tokens + [NewlineToken(st.line + 1)] + [t])
  {
  }

  lemma ScanTokenWordAfterNewline(src: string, st: ScanState)
    requires st.current + 1 < |src| && src[st.current] == '\n' && IsAlpha(src[st.current + 1])
    ensures ScanToken(src, st) == Ok(Identifier(src, AfterNewline(st)))
  {
    ScanTokenAfterNewline(src, st);
    DispatchWord(src, AfterNewline(st), src[st.current + 1]);
  }

  lemma WordRunAfterNewline(src: string, st: ScanState)
    requires st.current + 1 < |src| && IsAlpha(src[st.current + 1])
    ensures var e := WordEnd(src, st.current + 1);
      WordRun(src, AfterNewline(st)) == AfterNewline(st).(current := e, column := e - st.current)
  {
    var st1 := AfterNewline(st);
    WordRunEnd(src, st1);
    assert WordEnd(src, st1.current) == WordEnd(src, st.current + 1);
  }

  lemma IdentifierAfterNewline(src: string, st: ScanState)
    requires st.start == st.current && st.current + 1 < |src|
    requires src[st.current] == '\n' && IsAlpha(src[st.current + 1])
    ensures var e := WordEnd(src, st.current + 1);
      Identifier(src, AfterNewline(st)) == AfterNewline(st).(current := e, column := e - st.current,
        tokens := AfterNewline(st).tokens + [Token(IDENTIFIER, src[st.current..e], st.line + 1, 0, None)])
  {
    IdentifierAfterNewlineKind(src, st);
    AddIdentifierAfterNewline(src, st, WordEnd(src, st.current + 1));
  }

  lemma IdentifierAfterNewlineKind(src: string, st: ScanState)
    requires st.start == st.current && st.current + 1 < |src|
    requires src[st.current] == '\n' && IsAlpha(src[st.current + 1])
    ensures var e := WordEnd(src, st.current + 1);
      Identifier(src, AfterNewline(st)) == AddToken(src, AfterNewline(st).(current := e, column := e - st.current), IDENTIFIER, None)
  {
    var e := WordEnd(src, st.current + 1);
    WordRunAfterNewline(src, st);
    LexemeIsSlice(src, AfterNewline(st).(current := e, column := e - st.current));
    NewlineWordIsIdentifier(src[st.current..e]);
  }

  lemma AddIdentifierAfterNewline(src: string, st: ScanState, e: nat)
    requires st.start == st.current && st.current + 1 < e <= |src|
    ensures AddToken(src, AfterNewline(st).(current := e, column := e - st.current), IDENTIFIER, None)
      == AfterNewline(st).(current := e, column := e - st.current,
           tokens := AfterNewline(st).tokens + [Token(IDENTIFIER, src[st.current..e], st.line + 1, 0, None)])
  {
    LexemeIsSlice(src, AfterNewline(st).(current := e, column := e - st.current));
  }
}

/**
 * The `Scanner` class of scanner.ts: the cursor fields and the token list are
 * updated in place, and every method is proved to leave them exactly as the
 * corresponding function of ScanModel says.
 */
module Scanning {
  import opened Wrappers
  import opened Strings
  import opened Tokens
  import opened Diagnostics
  import V = Values
  import SM = ScanModel

  class Scanner {
    const source: string
    var tokens: seq<Token>
    var start: nat
    var current: nat
    var line: int
    var column: int

    /** The fields as one value, for the specification functions. */
    function State(): SM.ScanState
      reads this
    {
      SM.ScanState(start, current, line, column, tokens)
    }

    constructor(source: string)
      ensures this.source == source && State() == SM.Initial()
    {
      this.source := source;
      tokens := [];
      start := 0;
      current := 0;
      line := 1;
      column := 1;
    }

    function IsAtEnd(): bool
      reads this
    {
      SM.IsAtEnd(source, State())
    }

    function Peek(): char
      reads this
    {
      SM.Peek(source, State())
    }

    function PeekNext(): char
      reads this
    {
      SM.PeekNext(source, State())
    }

    method Advance() returns (c: string)
      modifies this
      ensures (c, State()) == SM.Advance(source, old(State()))
      decreases |source| - current
    {
      c := CharAt(source, current);
      current := current + 1;
      if c == "\n" {
        line := line + 1;
        column := 1;
        tokens := tokens + [SM.NewlineToken(line)];
        c := Advance();
      } else {
        column := column + 1;
      }
    }

    method Match(expected: char) returns (matched: bool)
      modifies this
      ensures (matched, State()) == SM.Match(source, old(State()), expected)
    {
      if IsAtEnd() {
        return false;
      }
      if source[current] != expected {
        return false;
      }
      current := current + 1;
      return true;
    }

    method AddToken(kind: TokenType, literal: Option<V.Value>)
      modifies this
      ensures State() == SM.AddToken(source, old(State()), kind, literal)
    {
      var text := Substring(source, start, current);
      tokens := tokens + [Token(kind, text, line, column - |text|, literal)];
    }

    method Identifier()
      modifies this
      ensures State() == SM.Identifier(source, old(State()))
    {
      while SM.IsAlphaNumeric(Peek())
        invariant SM.WordRun(source, State()) == SM.WordRun(source, old(State()))
        decreases |source| - current
      {
        var _ := Advance();
      }
      var text := Substring(source, start, current);
      var kind := Lookup(Upper(text));
      if kind.Some? {
        AddToken(kind.value, None);
      } else {
        AddToken(IDENTIFIER, None);
      }
    }

    method Number()
      modifies this
      ensures State() == SM.Number(source, old(State()))
    {
      while SM.IsDigit(Peek())
        invariant SM.DigitRun(source, State()) == SM.DigitRun(source, old(State()))
        decreases |source| - current
      {
        var _ := Advance();
      }
      ghost var digits := State();
      if Peek() == '.' && SM.IsDigit(PeekNext()) {
        // A digit follows the point, so it belongs to the number.
        var _ := Advance();
        ghost var point := State();
        while SM.IsDigit(Peek())
          invariant SM.DigitRun(source, State()) == SM.DigitRun(source, point)
          decreases |source| - current
        {
          var _ := Advance();
        }
      }
      assert State() == SM.NumberRun(source, digits);
      AddToken(NUMBER, Some(V.Number(Substring(source, start, current))));
    }

    method String() returns (o: Outcome<Failure>)
      modifies this
      ensures var r := SM.String(source, old(State()));
        if r.Ok? then o == Pass && State() == r.value else o == Fail(r.error)
    {
      while Peek() != '"' && !IsAtEnd()
        invariant SM.StringBody(source, State()) == SM.StringBody(source, old(State()))
        decreases |source| - current
      {
        ghost var before := State();
        if Peek() == '\n' {
          line := line + 1;
        }
        assert State() == SM.CountNewline(source, before);
        var _ := Advance();
      }
      assert SM.String(source, old(State())) == SM.CloseString(source, State());
      if IsAtEnd() {
        return Fail(Unterminated);
      }
      // Not at the end, so the character under the cursor is the quote.
      var _ := Advance();
      AddToken(STRING, Some(V.Str(Substring(source, start + 1, current - 1))));
      return Pass;
    }

    method ScanToken() returns (o: Outcome<Failure>)
      modifies this
      ensures var r := SM.ScanToken(source, old(State()));
        if r.Ok? then o == Pass && State() == r.value else o == Fail(r.error)
    {
      var s := Advance();
      if s == "" {
        return Fail(SM.IllegalCharacter(s, State()));
      }
      var c := s[0];
      var single := SM.SingleKind(c);
      if single.Some? {
        AddToken(single.value, None);
        return Pass;
      }
      o := Pass;
      match c
      case '!' =>
        var m := Match('=');
        AddToken(if m then BANG_EQUAL else BANG, None);
      case '=' =>
        var m := Match('=');
        AddToken(if m then EQUAL_EQUAL else EQUAL, None);
      case '<' =>
        var m := Match('=');
        AddToken(if m then LESS_EQUAL else LESS, None);
      case '>' =>
        var m := Match('=');
        AddToken(if m then GREATER_EQUAL else GREATER, None);
      case '/' =>
        var m := Match('/');
        if m {
          // `//` starts a comment: skip to the next newline or the end.
          ghost var begin := State();
          while Peek() != '\n' && !IsAtEnd()
            invariant SM.SkipComment(source, State()) == SM.SkipComment(source, begin)
            decreases |source| - current
          {
            var _ := Advance();
          }
        } else {
          AddToken(SLASH, None);
        }
      case ' ' | '\r' | '\t' =>
      case '"' =>
        o := String();
        return;
      case _ =>
        if SM.IsDigit(c) {
          Number();
        } else if SM.IsAlpha(c) {
          Identifier();
        } else {
          assert s == [c];
          return Fail(SM.IllegalCharacter(s, State()));
        }
    }

    /** Scans the rest of the source and returns every token so far, ending with EOF. */
    method ScanTokens() returns (r: Result<seq<Token>, Failure>)
      modifies this
      ensures var s := SM.ScanTokens(source, old(State()));
        if s.Ok? then r == Ok(tokens) && State() == s.value else r == Err(s.error)
    {
      while !IsAtEnd()
        invariant SM.ScanTokens(source, State()) == SM.ScanTokens(source, old(State()))
        decreases |source| - current
      {
        // Each iteration scans one lexeme, starting where the last one ended.
        start := current;
        var o := ScanToken();
        if o.Fail? {
          return Err(o.error);
        }
      }
      tokens := tokens + [SM.EofToken(State())];
      return Ok(tokens);
    }
  }
}

/**
 * The scanner of scanner.ts as a state-transition system: each private
 * method of `Scanner` is a function from the scanner's fields to their new
 * values. The `Scanner` class (module Scanning) is proved to follow these
 * functions step by step, and the properties of scanning are lemmas about
 * them (module ScanProperties).
 */
module ScanModel {
  import opened Wrappers
  import opened Strings
  import opened Tokens
  import opened Diagnostics
  import V = Values

  /**
   * The mutable fields of a scanner. `current` may be one past the end of the
   * source: `advance` moves it even when it reads nothing.
   */
  datatype ScanState = ScanState(start: nat, current: nat, line: int, column: int, tokens: seq<Token>)

  /** The fields as the constructor sets them. */
  function Initial(): ScanState {
    ScanState(0, 0, 1, 1, [])
  }

  predicate IsDigit(c: char) {
    '0' <= c <= '9'
  }

  predicate IsAlpha(c: char) {
    ('a' <= c <= 'z') || ('A' <= c <= 'Z') || c == '_'
  }

  predicate IsAlphaNumeric(c: char) {
    IsAlpha(c) || IsDigit(c)
  }

  predicate IsAtEnd(src: string, st: ScanState) {
    st.current >= |src|
  }

  /** The next character, or NUL at the end. */
  function Peek(src: string, st: ScanState): char {
    if IsAtEnd(src, st) then '\0' else src[st.current]
  }

  /** The character after the next one, or NUL. */
  function PeekNext(src: string, st: ScanState): char {
    if st.current + 1 >= |src| then '\0' else src[st.current + 1]
  }

  /** The token `advance` pushes for a newline: the new line, column 1. */
  function NewlineToken(line: int): Token {
    Token(NEWLINE, "\n", line, 1, None)
  }

  /**
   * `advance`: reads the character under the cursor and moves past it. A
   * newline bumps the line, resets the column, pushes a NEWLINE token and reads
   * on; any other character, or the empty string past the end, bumps the
   * column.
   */
  function Advance(src: string, st: ScanState): (r: (string, ScanState))
    ensures st.current < r.1.current
    ensures r.1.start == st.start && st.tokens <= r.1.tokens
    ensures |r.0| <= 1 && (r.0 == "" <==> r.1.current > |src|)
    ensures st.current <= |src| ==> r.1.current <= |src| + 1
    decreases |src| - st.current
  {
    var c := CharAt(src, st.current);
    if c == "\n" then
      Advance(src, st.(current := st.current + 1, line := st.line + 1, column := 1,
                       tokens := st.tokens + [NewlineToken(st.line + 1)]))
    else
      (c, st.(current := st.current + 1, column := st.column + 1))
  }

  /** `match`: consumes the next character if it is `expected`, without touching the column. */
  function Match(src: string, st: ScanState, expected: char): (r: (bool, ScanState))
    ensures r.0 <==> !IsAtEnd(src, st) && src[st.current] == expected
    ensures r.1 == if r.0 then st.(current := st.current + 1) else st
  {
    if IsAtEnd(src, st) then (false, st)
    else if src[st.current] != expected then (false, st)
    else (true, st.(current := st.current + 1))
  }

  /** The lexeme of the token being scanned. */
  function Lexeme(src: string, st: ScanState): string {
    Substring(src, st.start, st.current)
  }

  /** `addToken`: pushes a token whose column is the running column minus the lexeme's length. */
  function AddToken(src: string, st: ScanState, kind: TokenType, literal: Option<V.Value>): (r: ScanState)
    ensures r.tokens == st.tokens + [Token(kind, Lexeme(src, st), st.line, st.column - |Lexeme(src, st)|, literal)]
    ensures r.(tokens := st.tokens) == st
  {
    var text := Lexeme(src, st);
    st.(tokens := st.tokens + [Token(kind, text, st.line, st.column - |text|, literal)])
  }

  /** The comment loop: reads on up to, not including, the end of the line. */
  function SkipComment(src: string, st: ScanState): (r: ScanState)
    ensures st.current <= r.current && r.start == st.start && r.tokens == st.tokens
    ensures Peek(src, r) == '\n' || IsAtEnd(src, r)
    decreases |src| - st.current
  {
    if Peek(src, st) != '\n' && !IsAtEnd(src, st) then SkipComment(src, Advance(src, st).1)
    else st
  }

  /** The loop of `identifier`: reads letters, digits and `_`. */
  function WordRun(src: string, st: ScanState): (r: ScanState)
    ensures st.current <= r.current && r.start == st.start && r.tokens == st.tokens
    ensures !IsAlphaNumeric(Peek(src, r))
    decreases |src| - st.current
  {
    if IsAlphaNumeric(Peek(src, st)) then WordRun(src, Advance(src, st).1) else st
  }

  /** The kind of a word: the kind named by its upper-cased text, else IDENTIFIER. */
  function WordKind(text: string): TokenType {
    var k := Lookup(Upper(text));
    if k.Some? then k.value else IDENTIFIER
  }

  /** `identifier`: the rest of a word, then its token. */
  function Identifier(src: string, st: ScanState): (r: ScanState)
    ensures st.current <= r.current && r.start == st.start && st.tokens < r.tokens
  {
    var st1 := WordRun(src, st);
    AddToken(src, st1, WordKind(Lexeme(src, st1)), None)
  }

  /** A digit loop of `number`. */
  function DigitRun(src: string, st: ScanState): (r: ScanState)
    ensures st.current <= r.current && r.start == st.start && r.tokens == st.tokens
    ensures !IsDigit(Peek(src, r))
    decreases |src| - st.current
  {
    if IsDigit(Peek(src, st)) then DigitRun(src, Advance(src, st).1) else st
  }

  /** The fractional part of `number`: a `.` and digits, if a digit follows the `.`. */
  function Fraction(src: string, st: ScanState): (r: ScanState)
    ensures st.current <= r.current && r.start == st.start && r.tokens == st.tokens
  {
    if Peek(src, st) == '.' && IsDigit(PeekNext(src, st)) then DigitRun(src, Advance(src, st).1)
    else st
  }

  /** The scan of `number` up to its token: digits, then the fractional part. */
  function NumberRun(src: string, st: ScanState): (r: ScanState)
    ensures st.current <= r.current && r.start == st.start && r.tokens == st.tokens
  {
    Fraction(src, DigitRun(src, st))
  }

  /** `number`: a NUMBER token whose literal value is the number the lexeme denotes. */
  function Number(src: string, st: ScanState): (r: ScanState)
    ensures st.current <= r.current && r.start == st.start && st.tokens < r.tokens
  {
    var st1 := NumberRun(src, st);
    AddToken(src, st1, NUMBER, Some(V.Number(Lexeme(src, st1))))
  }

  /** One iteration of the loop of `string`: a newline under the cursor is counted before `advance` counts it again. */
  function StringStep(src: string, st: ScanState): (r: ScanState)
    ensures st.current < r.current && r.start == st.start && st.tokens <= r.tokens
  {
    Advance(src, CountNewline(src, st)).1
  }

  /** The line count the loop of `string` bumps before `advance` when a newline is under the cursor. */
  function CountNewline(src: string, st: ScanState): ScanState {
    if Peek(src, st) == '\n' then st.(line := st.line + 1) else st
  }

  /** The loop of `string`: reads up to the closing quote or the end. */
  function StringBody(src: string, st: ScanState): (r: ScanState)
    ensures st.current <= r.current && r.start == st.start && st.tokens <= r.tokens
    ensures Peek(src, r) == '"' || IsAtEnd(src, r)
    decreases |src| - st.current
  {
    if Peek(src, st) != '"' && !IsAtEnd(src, st) then StringBody(src, StringStep(src, st)) else st
  }

  /** `string`: the body, then the closing quote. */
  function String(src: string, st: ScanState): (r: Result<ScanState, Failure>)
    ensures r.Err? ==> r.error == Unterminated
    ensures r.Ok? ==> st.current < r.value.current && r.value.start == st.start && st.tokens < r.value.tokens
  {
    CloseString(src, StringBody(src, st))
  }

  /** The end of `string`: fails at the end of the source, else reads the quote and adds a STRING token carrying the text between the quotes. */
  function CloseString(src: string, st: ScanState): (r: Result<ScanState, Failure>)
    ensures r.Err? ==> r.error == Unterminated
    ensures r.Ok? ==> st.current < r.value.current && r.value.start == st.start && st.tokens < r.value.tokens
  {
    if IsAtEnd(src, st) then Err(Unterminated)
    else
      var st1 := Advance(src, st).1;
      Ok(AddToken(src, st1, STRING, Some(V.Str(Substring(src, st1.start + 1, st1.current - 1)))))
  }

  /** The failure for a character no token starts with, reported one column left of the running column. */
  function IllegalCharacter(c: string, st: ScanState): Failure {
    Illegal("Unexpected character: '" + c + "'", Token(ILLEGAL, c, st.line, st.column - 1, None))
  }

  /** A position where a one- or two-character operator ends: the one-character kind, or the two-character one after `=`. */
  function Operator(src: string, st: ScanState, one: TokenType, two: TokenType): (r: ScanState)
    ensures st.current <= r.current && r.start == st.start && st.tokens < r.tokens
  {
    var (m, st1) := Match(src, st, '=');
    AddToken(src, st1, if m then two else one, None)
  }

  /** The kind of a one-character token, if `c` is one. */
  function SingleKind(c: char): Option<TokenType> {
    match c
    case '(' => Some(LEFT_PAREN)
    case ')' => Some(RIGHT_PAREN)
    case '{' => Some(LEFT_BRACE)
    case '}' => Some(RIGHT_BRACE)
    case '[' => Some(LEFT_BRACKET)
    case ']' => Some(RIGHT_BRACKET)
    case ',' => Some(COMMA)
    case '-' => Some(MINUS)
    case '+' => Some(PLUS)
    case '*' => Some(STAR)
    case _ => None
  }

  /** The `switch` of `scanToken`: what follows reading the character `c`. */
  function Dispatch(src: string, st: ScanState, c: char): (r: Result<ScanState, Failure>)
    ensures r.Ok? ==> st.current <= r.value.current && r.value.start == st.start && st.tokens <= r.value.tokens
  {
    if SingleKind(c).Some? then Ok(AddToken(src, st, SingleKind(c).value, None))
    else match c
      case '!' => Ok(Operator(src, st, BANG, BANG_EQUAL))
      case '=' => Ok(Operator(src, st, EQUAL, EQUAL_EQUAL))
      case '<' => Ok(Operator(src, st, LESS, LESS_EQUAL))
      case '>' => Ok(Operator(src, st, GREATER, GREATER_EQUAL))
      case '/' =>
        var (m, st1) := Match(src, st, '/');
        if m then Ok(SkipComment(src, st1)) else Ok(AddToken(src, st, SLASH, None))
      case ' ' | '\r' | '\t' => Ok(st)
      case '"' => String(src, st)
      case _ =>
        if IsDigit(c) then Ok(Number(src, st))
        else if IsAlpha(c) then Ok(Identifier(src, st))
        else Err(IllegalCharacter([c], st))
  }

  /** `scanToken`: reads one lexeme (or skips white space or a comment) from `start`. */
  function ScanToken(src: string, st: ScanState): (r: Result<ScanState, Failure>)
    ensures r.Ok? ==> st.current < r.value.current && r.value.start == st.start && st.tokens <= r.value.tokens
  {
    var (s, st1) := Advance(src, st);
    if s == "" then Err(IllegalCharacter(s, st1)) else Dispatch(src, st1, s[0])
  }

  /** The loop of `scanTokens`: a token from every position until the end of the source. */
  function ScanLoop(src: string, st: ScanState): (r: Result<ScanState, Failure>)
    ensures r.Ok? ==> IsAtEnd(src, r.value) && st.tokens <= r.value.tokens
    decreases |src| - st.current
  {
    if IsAtEnd(src, st) then Ok(st)
    else
      var st1 :- ScanToken(src, st.(start := st.current));
      ScanLoop(src, st1)
  }

  /** The token `scanTokens` pushes last. */
  function EofToken(st: ScanState): Token {
    Token(EOF, "", st.line, st.column, None)
  }

  /** `scanTokens`: scans to the end, then pushes an EOF token at the running line and column. */
  function ScanTokens(src: string, st: ScanState): (r: Result<ScanState, Failure>)
    ensures r.Ok? ==> st.tokens < r.value.tokens && r.value.tokens[|r.value.tokens| - 1].kind == EOF
  {
    var st1 :- ScanLoop(src, st);
    Ok(st1.(tokens := st1.tokens + [EofToken(st1)]))
  }

  /** The tokens of a whole source, scanned by a fresh scanner. */
  function Scan(src: string): (r: Result<seq<Token>, Failure>)
    ensures r.Ok? ==> |r.value| > 0 && r.value[|r.value| - 1].kind == EOF
  {
    var st :- ScanTokens(src, Initial());
    Ok(st.tokens)
  }
}

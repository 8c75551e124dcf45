/**
 * The parser-emitter of compiler.ts as functions: every production reads the
 * token sequence from a cursor position and yields the output text it
 * synthesises together with the position after it, or the error it throws.
 * The `Compiler` class (module Compiling) is proved to follow these functions,
 * and the properties of the generated text are proved about them (module
 * ParseProperties).
 *
 * Each production is followed by the loop it contains, written as a function
 * `…From` of the loop's variables; the production starts that loop.
 */
module ParseModel {
  import opened Wrappers
  import opened Strings
  import opened Tokens
  import opened Diagnostics
  import V = Values
  import SM = ScanModel

  /**
   * The `constants` map. A constant declared from a NUMBER or STRING token
   * that carries no literal (a word such as `number`) holds `undefined`, and
   * so does a list with such an element anywhere inside: all of these are
   * `None`, because the only use of a constant is its serialisation, which
   * throws for every one of them.
   */
  type Constants = map<string, Option<V.Value>>

  /** What a production yields: its result and the cursor after it. */
  datatype Parsed<T> = Parsed(value: T, pos: nat)

  /** What a top-level declaration yields: its text, the cursor after it and the constants now declared. */
  datatype Emitted = Emitted(text: string, pos: nat, constants: Constants)

  // ----- The output templates -----

  /** The translation of a function: `to` or `to-report`, the name, the parameters, the body and `end`. */
  function FunctionText(name: string, parameters: seq<string>, body: string): string {
    var head := if Includes(body, "report ") then "to-report" else "to";
    head + " " + name + " [" + Join(parameters, " ") + "]" + body + "end\n"
  }

  function LetText(name: string, value: string): string {
    "let " + name + " " + value + " \n"
  }

  function ForeachText(name: string, list: string, body: string): string {
    "foreach " + list + " [" + name + " -> \n" + body + "]\n"
  }

  /** The two-branch form only when the else text is not empty. */
  function IfText(condition: string, thenBranch: string, elseBranch: string): string {
    if |elseBranch| > 0 then "ifelse " + condition + " [\n" + thenBranch + "]\n [\n" + elseBranch + "]\n"
    else "if " + condition + " [\n" + thenBranch + "]\n"
  }

  function ReportText(value: string): string {
    "report " + value + "\n"
  }

  function WhileText(condition: string, body: string): string {
    "while [" + condition + "] [\n" + body + "]\n"
  }

  function CallText(callee: string, args: seq<string>): string {
    callee + " " + Join(args, " ")
  }

  function IndexText(index: string, callee: string): string {
    "item " + index + " " + callee
  }

  function ListDisplayText(elements: seq<string>): string {
    "( list " + Join(elements, " ") + " )"
  }

  // ----- The cursor -----

  /** The tokens end with an EOF token, as every output of the scanner does. */
  predicate Terminated(ts: seq<Token>) {
    |ts| > 0 && ts[|ts| - 1].kind == EOF
  }

  /**
   * The compiler's invariant: the cursor is on a token. It never moves past
   * an EOF token, so it never leaves the sequence.
   */
  predicate Cursor(ts: seq<Token>, pos: nat) {
    Terminated(ts) && pos < |ts|
  }

  /** `check`: the kind of the current token is among `kinds`. */
  predicate Check(ts: seq<Token>, pos: nat, kinds: seq<TokenType>)
    requires Cursor(ts, pos)
  {
    ts[pos].kind in kinds
  }

  predicate IsAtEnd(ts: seq<Token>, pos: nat)
    requires Cursor(ts, pos)
  {
    ts[pos].kind == EOF
  }

  /** `advance`: one token further, except at EOF. */
  function Advance(ts: seq<Token>, pos: nat): (r: nat)
    requires Cursor(ts, pos)
    ensures Cursor(ts, r)
    ensures r == pos <==> IsAtEnd(ts, pos)
    ensures r <= pos + 1
  {
    if IsAtEnd(ts, pos) then pos else pos + 1
  }

  /** `match`: whether the current token's kind is among `kinds`, and the cursor after consuming it if so. */
  function Match(ts: seq<Token>, pos: nat, kinds: seq<TokenType>): (r: Parsed<bool>)
    requires Cursor(ts, pos)
    ensures Cursor(ts, r.pos)
    ensures r.value <==> ts[pos].kind in kinds
    ensures r.pos == if r.value then Advance(ts, pos) else pos
  {
    if ts[pos].kind in kinds then Parsed(true, Advance(ts, pos)) else Parsed(false, pos)
  }

  /** `consume`: the current token if it has kind `kind`, else a syntax error at it. */
  function Consume(ts: seq<Token>, pos: nat, kind: TokenType, message: Complaint): (r: Result<Parsed<Token>, Failure>)
    requires Cursor(ts, pos)
    ensures r.Ok? <==> ts[pos].kind == kind
    ensures r.Ok? ==> r.value == Parsed(ts[pos], pos + 1)
    ensures r.Ok? && kind != EOF ==> r.value.pos < |ts|
    ensures r.Err? ==> r.error == Syntax(message, ts[pos])
  {
    if ts[pos].kind == kind then Ok(Parsed(ts[pos], pos + 1)) else Err(Syntax(message, ts[pos]))
  }

  // ----- Top level -----

  /** `compile`, from a cursor and constants: the texts of the declarations up to EOF, concatenated. */
  function CompileFrom(ts: seq<Token>, c: Constants, pos: nat, acc: string): (r: Result<string, Failure>)
    requires Cursor(ts, pos)
    ensures r.Ok? ==> acc <= r.value
    decreases |ts| - pos
  {
    if IsAtEnd(ts, pos) then Ok(acc)
    else
      var g :- Global(ts, c, pos);
      CompileFrom(ts, g.constants, g.pos, acc + g.text)
  }

  /** A fresh compiler: from the first token, with no constants. */
  function Compile(ts: seq<Token>): Result<string, Failure>
    requires Terminated(ts)
  {
    CompileFrom(ts, map[], 0, "")
  }

  /** `global`: a function, a constant or an empty line. */
  function Global(ts: seq<Token>, c: Constants, pos: nat): (r: Result<Emitted, Failure>)
    requires Cursor(ts, pos)
    ensures r.Ok? ==> pos < r.value.pos < |ts|
  {
    var atFunction := Match(ts, pos, [FUNCTION]);
    if atFunction.value then
      var f :- FunctionDeclaration(ts, c, atFunction.pos);
      Ok(Emitted(f.value, f.pos, c))
    else
    var atConst := Match(ts, pos, [CONST]);
    if atConst.value then ConstDeclaration(ts, c, atConst.pos)
    else
    var newline := Match(ts, pos, [NEWLINE]);
    if newline.value then Ok(Emitted("\n", newline.pos, c))
    else Err(Syntax(ExpectedDeclaration, ts[pos]))
  }

  /** `functionDeclaration`, after the `function` keyword. */
  function FunctionDeclaration(ts: seq<Token>, c: Constants, pos: nat): (r: Result<Parsed<string>, Failure>)
    requires Cursor(ts, pos)
    ensures r.Ok? ==> pos < r.value.pos < |ts|
  {
    var signature :- Signature(ts, pos);
    var body :- Block(ts, c, signature.pos);
    Ok(Parsed(FunctionText(signature.value.0, signature.value.1, body.value), body.pos))
  }

  /** The name and the parameter list of a function, up to and including the `{` before its body. */
  function Signature(ts: seq<Token>, pos: nat): (r: Result<Parsed<(string, seq<string>)>, Failure>)
    requires Cursor(ts, pos)
    ensures r.Ok? ==> pos < r.value.pos < |ts|
  {
    var name :- Consume(ts, pos, IDENTIFIER, ExpectedFunctionName);
    var open :- Consume(ts, name.pos, LEFT_PAREN, ExpectedParenAfterFunctionName);
    var parameters :- if Check(ts, open.pos, [RIGHT_PAREN]) then Ok(Parsed([], open.pos))
                      else ParametersFrom(ts, open.pos, []);
    var close :- Consume(ts, parameters.pos, RIGHT_PAREN, ExpectedParenAfterParameters);
    var brace :- Consume(ts, close.pos, LEFT_BRACE, ExpectedBraceBeforeFunctionBody);
    Ok(Parsed((name.value.lexeme, parameters.value), brace.pos))
  }

  /** The parameter loop: a name, then more names while a comma follows. */
  function ParametersFrom(ts: seq<Token>, pos: nat, acc: seq<string>): (r: Result<Parsed<seq<string>>, Failure>)
    requires Cursor(ts, pos)
    ensures r.Ok? ==> pos < r.value.pos < |ts| && |acc| < |r.value.value|
    decreases |ts| - pos
  {
    var p :- Consume(ts, pos, IDENTIFIER, ExpectedParameterName);
    var comma := Match(ts, p.pos, [COMMA]);
    if comma.value then ParametersFrom(ts, comma.pos, acc + [p.value.lexeme])
    else Ok(Parsed(acc + [p.value.lexeme], comma.pos))
  }

  /** `constDeclaration`, after the `const` keyword: emits nothing and sets the constant. */
  function ConstDeclaration(ts: seq<Token>, c: Constants, pos: nat): (r: Result<Emitted, Failure>)
    requires Cursor(ts, pos)
    ensures r.Ok? ==> pos < r.value.pos < |ts|
  {
    var name :- Consume(ts, pos, IDENTIFIER, ExpectedConstName);
    var equals :- Consume(ts, name.pos, EQUAL, ExpectedEqualAfterConstName);
    ConstValue(ts, c, equals.pos, name.value.lexeme)
  }

  /** The rest of `constDeclaration` after `=`: a literal and a NEWLINE, then `name` is set to the literal's value. */
  function ConstValue(ts: seq<Token>, c: Constants, pos: nat, name: string): (r: Result<Emitted, Failure>)
    requires Cursor(ts, pos)
    ensures r.Ok? ==> pos < r.value.pos < |ts|
  {
    var value :- Literal(ts, pos);
    var newline :- Consume(ts, value.pos, NEWLINE, ExpectedNewlineAfterConstValue);
    Ok(Emitted("", newline.pos, c[name := value.value]))
  }

  /** Every element is defined, and then their values; `None` when some element is undefined. */
  function Defined(items: seq<Option<V.Value>>): (r: Option<seq<V.Value>>)
    ensures r.Some? <==> forall i :: 0 <= i < |items| ==> items[i].Some?
    ensures r.Some? ==> |r.value| == |items| && forall i :: 0 <= i < |items| ==> items[i] == Some(r.value[i])
  {
    if items == [] then Some([])
    else if items[0].None? then None
    else match Defined(items[1..])
      case None => None
      case Some(rest) => Some([items[0].value] + rest)
  }

  /** `literal`: a number, a string, `true`, `false` or a bracketed list of literals. */
  function Literal(ts: seq<Token>, pos: nat): (r: Result<Parsed<Option<V.Value>>, Failure>)
    requires Cursor(ts, pos)
    ensures r.Ok? ==> pos < r.value.pos < |ts|
    decreases |ts| - pos, 0
  {
    var value := Match(ts, pos, [NUMBER, STRING]);
    if value.value then Ok(Parsed(ts[pos].literal, value.pos))
    else
    var atTrue := Match(ts, pos, [TRUE]);
    if atTrue.value then Ok(Parsed(Some(V.Boolean(true)), atTrue.pos))
    else
    var atFalse := Match(ts, pos, [FALSE]);
    if atFalse.value then Ok(Parsed(Some(V.Boolean(false)), atFalse.pos))
    else
    var bracket := Match(ts, pos, [LEFT_BRACKET]);
    if bracket.value then ListLiteral(ts, bracket.pos)
    else Err(Syntax(ExpectedLiteral, ts[pos]))
  }

  /** A list literal after `[`: its elements, or undefined if one of them is. */
  function ListLiteral(ts: seq<Token>, pos: nat): (r: Result<Parsed<Option<V.Value>>, Failure>)
    requires Cursor(ts, pos)
    ensures r.Ok? ==> pos <= r.value.pos < |ts|
    decreases |ts| - pos, 2
  {
    var items :- LiteralsFrom(ts, pos, []);
    var value := match Defined(items.value) case Some(vs) => Some(V.List(vs)) case None => None;
    Ok(Parsed(value, items.pos))
  }

  /**
   * The list loop of `literal`: while the current token is not `]`, a literal,
   * then either `]`, which ends the list, or a comma. A `]` met at the top of
   * the loop ends it without being consumed.
   */
  function LiteralsFrom(ts: seq<Token>, pos: nat, acc: seq<Option<V.Value>>): (r: Result<Parsed<seq<Option<V.Value>>>, Failure>)
    requires Cursor(ts, pos)
    ensures r.Ok? ==> pos <= r.value.pos < |ts| && acc <= r.value.value
    decreases |ts| - pos, 1
  {
    if Check(ts, pos, [RIGHT_BRACKET]) then Ok(Parsed(acc, pos))
    else
      var item :- Literal(ts, pos);
      var closed := Match(ts, item.pos, [RIGHT_BRACKET]);
      if closed.value then Ok(Parsed(acc + [item.value], closed.pos))
      else
        var comma :- Consume(ts, item.pos, COMMA, ExpectedCommaAfterValue);
        LiteralsFrom(ts, comma.pos, acc + [item.value])
  }

  // ----- Statements -----

  /** `block`: statements up to `}`, which is consumed. */
  function Block(ts: seq<Token>, c: Constants, pos: nat): (r: Result<Parsed<string>, Failure>)
    requires Cursor(ts, pos)
    ensures r.Ok? ==> pos < r.value.pos < |ts|
    decreases |ts| - pos, 24
  {
    BlockFrom(ts, c, pos, "")
  }

  /** The loop of `block`: statements while the current token is neither `}` nor EOF. */
  function BlockFrom(ts: seq<Token>, c: Constants, pos: nat, acc: string): (r: Result<Parsed<string>, Failure>)
    requires Cursor(ts, pos)
    ensures r.Ok? ==> pos < r.value.pos < |ts| && acc <= r.value.value
    decreases |ts| - pos, 23
  {
    if !Check(ts, pos, [RIGHT_BRACE]) && !IsAtEnd(ts, pos) then
      var s :- Statement(ts, c, pos);
      BlockFrom(ts, c, s.pos, acc + s.value)
    else
      var brace :- Consume(ts, pos, RIGHT_BRACE, ExpectedBraceAfterBlock);
      Ok(Parsed(acc, brace.pos))
  }

  /** `statement`, dispatching on its first token. */
  function Statement(ts: seq<Token>, c: Constants, pos: nat): (r: Result<Parsed<string>, Failure>)
    requires Cursor(ts, pos)
    ensures r.Ok? ==> pos < r.value.pos < |ts|
    decreases |ts| - pos, 22
  {
    var atForeach := Match(ts, pos, [FOREACH]);
    if atForeach.value then Foreach(ts, c, atForeach.pos)
    else
    var atIf := Match(ts, pos, [IF]);
    if atIf.value then If(ts, c, atIf.pos)
    else
    var atReturn := Match(ts, pos, [RETURN]);
    if atReturn.value then Return(ts, c, atReturn.pos)
    else
    var atWhile := Match(ts, pos, [WHILE]);
    if atWhile.value then While(ts, c, atWhile.pos)
    else
    var newline := Match(ts, pos, [NEWLINE]);
    if newline.value then Ok(Parsed("\n", newline.pos))
    else
    var atLet := Match(ts, pos, [LET]);
    if atLet.value then Declaration(ts, c, atLet.pos)
    else ExpressionStatement(ts, c, pos)
  }

  /** `declaration`, after `let`. */
  function Declaration(ts: seq<Token>, c: Constants, pos: nat): (r: Result<Parsed<string>, Failure>)
    requires Cursor(ts, pos)
    ensures r.Ok? ==> pos < r.value.pos < |ts|
    decreases |ts| - pos, 22
  {
    var name :- Consume(ts, pos, IDENTIFIER, ExpectedVariableName);
    var equals :- Consume(ts, name.pos, EQUAL, ExpectedEqualAfterVariableName);
    var value :- Expression(ts, c, equals.pos);
    var newline :- Consume(ts, value.pos, NEWLINE, ExpectedNewlineAfterVariableValue);
    Ok(Parsed(LetText(name.value.lexeme, value.value), newline.pos))
  }

  /** `foreachStatement`, after `foreach`: the loop variable and the list, then the body. */
  function Foreach(ts: seq<Token>, c: Constants, pos: nat): (r: Result<Parsed<string>, Failure>)
    requires Cursor(ts, pos)
    ensures r.Ok? ==> pos < r.value.pos < |ts|
    decreases |ts| - pos, 22
  {
    var name :- Consume(ts, pos, IDENTIFIER, ExpectedForeachName);
    var into :- Consume(ts, name.pos, IN, ExpectedInAfterForeachName);
    var list :- Expression(ts, c, into.pos);
    ForeachBody(ts, c, list.pos, name.value.lexeme, list.value)
  }

  /** The rest of `foreachStatement` after the list: `{` and the block. */
  function ForeachBody(ts: seq<Token>, c: Constants, pos: nat, name: string, list: string): (r: Result<Parsed<string>, Failure>)
    requires Cursor(ts, pos)
    ensures r.Ok? ==> pos < r.value.pos < |ts|
    decreases |ts| - pos, 25
  {
    var brace :- Consume(ts, pos, LEFT_BRACE, ExpectedBraceBeforeForeachBody);
    var body :- Block(ts, c, brace.pos);
    Ok(Parsed(ForeachText(name, list, body.value), body.pos))
  }

  /** `ifStatement`, after `if`: the condition in parentheses, then the branches. */
  function If(ts: seq<Token>, c: Constants, pos: nat): (r: Result<Parsed<string>, Failure>)
    requires Cursor(ts, pos)
    ensures r.Ok? ==> pos < r.value.pos < |ts|
    decreases |ts| - pos, 22
  {
    var open :- Consume(ts, pos, LEFT_PAREN, ExpectedParenAfterIf);
    var condition :- Expression(ts, c, open.pos);
    var close :- Consume(ts, condition.pos, RIGHT_PAREN, ExpectedParenAfterIfCondition);
    IfBranches(ts, c, close.pos, condition.value)
  }

  /**
   * The rest of `ifStatement` after `)`: the then-block, and an else-block when
   * `else` follows it. The block starts right after `)`: no `{` is consumed first.
   */
  function IfBranches(ts: seq<Token>, c: Constants, pos: nat, condition: string): (r: Result<Parsed<string>, Failure>)
    requires Cursor(ts, pos)
    ensures r.Ok? ==> pos < r.value.pos < |ts|
    decreases |ts| - pos, 25
  {
    var thenBranch :- Block(ts, c, pos);
    var hasElse := Match(ts, thenBranch.pos, [ELSE]);
    var elseBranch :- if hasElse.value then Block(ts, c, hasElse.pos) else Ok(Parsed("", hasElse.pos));
    Ok(Parsed(IfText(condition, thenBranch.value, elseBranch.value), elseBranch.pos))
  }

  /** `returnStatement`, after `return`: a bare return leaves the NEWLINE in place. */
  function Return(ts: seq<Token>, c: Constants, pos: nat): (r: Result<Parsed<string>, Failure>)
    requires Cursor(ts, pos)
    ensures r.Ok? ==> pos <= r.value.pos < |ts|
    decreases |ts| - pos, 22
  {
    if Check(ts, pos, [NEWLINE]) then Ok(Parsed("stop\n", pos))
    else
      var value :- Expression(ts, c, pos);
      var newline :- Consume(ts, value.pos, NEWLINE, ExpectedNewlineAfterReturn);
      Ok(Parsed(ReportText(value.value), newline.pos))
  }

  /** `whileStatement`, after `while`. As in `if`, the block starts right after `)`. */
  function While(ts: seq<Token>, c: Constants, pos: nat): (r: Result<Parsed<string>, Failure>)
    requires Cursor(ts, pos)
    ensures r.Ok? ==> pos < r.value.pos < |ts|
    decreases |ts| - pos, 22
  {
    var open :- Consume(ts, pos, LEFT_PAREN, ExpectedParenAfterWhile);
    var condition :- Expression(ts, c, open.pos);
    var close :- Consume(ts, condition.pos, RIGHT_PAREN, ExpectedParenAfterWhileCondition);
    var body :- Block(ts, c, close.pos);
    Ok(Parsed(WhileText(condition.value, body.value), body.pos))
  }

  /** `expressionStatement`: an expression ended by a NEWLINE. */
  function ExpressionStatement(ts: seq<Token>, c: Constants, pos: nat): (r: Result<Parsed<string>, Failure>)
    requires Cursor(ts, pos)
    ensures r.Ok? ==> pos < r.value.pos < |ts|
    decreases |ts| - pos, 21
  {
    var e :- Expression(ts, c, pos);
    var newline :- Consume(ts, e.pos, NEWLINE, ExpectedNewlineAfterExpression);
    Ok(Parsed(e.value + "\n", newline.pos))
  }

  // ----- Expressions -----

  function Expression(ts: seq<Token>, c: Constants, pos: nat): (r: Result<Parsed<string>, Failure>)
    requires Cursor(ts, pos)
    ensures r.Ok? ==> pos < r.value.pos < |ts|
    decreases |ts| - pos, 18
  {
    Assignment(ts, c, pos)
  }

  /**
   * `assignment`: an `or` expression, and if `=` follows, the right side is
   * parsed and then the assignment is rejected, because the token tested for
   * being an identifier is the `=` itself.
   */
  function Assignment(ts: seq<Token>, c: Constants, pos: nat): (r: Result<Parsed<string>, Failure>)
    requires Cursor(ts, pos)
    ensures r.Ok? ==> pos < r.value.pos < |ts|
    decreases |ts| - pos, 17
  {
    var e :- Binary(ts, c, pos, 8);
    var equals := Match(ts, e.pos, [EQUAL]);
    if equals.value then
      var value :- Assignment(ts, c, equals.pos);
      Err(Syntax(InvalidAssignmentTarget, ts[e.pos]))
    else Ok(e)
  }

  /**
   * The operators of the binary levels, from multiplication (3) to `or` (8);
   * the levels are `multiplication`, `addition`, `comparison`, `equality`,
   * `and` and `or` of compiler.ts.
   */
  function Operators(level: nat): seq<TokenType>
    requires 3 <= level <= 8
  {
    if level == 3 then [SLASH, STAR]
    else if level == 4 then [MINUS, PLUS]
    else if level == 5 then [GREATER, GREATER_EQUAL, LESS, LESS_EQUAL]
    else if level == 6 then [BANG_EQUAL, EQUAL_EQUAL]
    else if level == 7 then [AND]
    else [OR]
  }

  /** The text of `left op right`; `and` is written ` or `, and `!=` puts `not` before the whole equality. */
  function OperatorText(op: TokenType, left: string, right: string): string {
    match op
    case OR => left + " or " + right
    case AND => left + " or " + right
    case BANG_EQUAL => "not " + left + " = " + right
    case EQUAL_EQUAL => left + " = " + right
    case GREATER => left + " > " + right
    case GREATER_EQUAL => left + " >= " + right
    case LESS => left + " < " + right
    case LESS_EQUAL => left + " <= " + right
    case MINUS => left + " - " + right
    case PLUS => left + " + " + right
    case SLASH => left + " / " + right
    case STAR => left + " * " + right
    case _ => left
  }

  /** The operand of a binary level: the next level up, or `unary` under multiplication. */
  function Operand(ts: seq<Token>, c: Constants, pos: nat, level: nat): (r: Result<Parsed<string>, Failure>)
    requires Cursor(ts, pos) && 3 <= level <= 8
    ensures r.Ok? ==> pos < r.value.pos < |ts|
    decreases |ts| - pos, 2 * level - 1
  {
    if level == 3 then Unary(ts, c, pos) else Binary(ts, c, pos, level - 1)
  }

  /** A binary level: an operand, then the loop over further operators of the level. */
  function Binary(ts: seq<Token>, c: Constants, pos: nat, level: nat): (r: Result<Parsed<string>, Failure>)
    requires Cursor(ts, pos) && 3 <= level <= 8
    ensures r.Ok? ==> pos < r.value.pos < |ts|
    decreases |ts| - pos, 2 * level
  {
    var first :- Operand(ts, c, pos, level);
    BinaryFrom(ts, c, first.pos, level, first.value)
  }

  /** The loop of a binary level: while one of its operators comes, the next operand joins the text on the right. */
  function BinaryFrom(ts: seq<Token>, c: Constants, pos: nat, level: nat, acc: string): (r: Result<Parsed<string>, Failure>)
    requires Cursor(ts, pos) && 3 <= level <= 8
    ensures r.Ok? ==> pos <= r.value.pos < |ts|
    decreases |ts| - pos, 2 * level
  {
    var operator := Match(ts, pos, Operators(level));
    if operator.value then
      var right :- Operand(ts, c, operator.pos, level);
      BinaryFrom(ts, c, right.pos, level, OperatorText(ts[pos].kind, acc, right.value))
    else Ok(Parsed(acc, pos))
  }

  /** `unary`: `!` and `-` prefixes, then a call. */
  function Unary(ts: seq<Token>, c: Constants, pos: nat): (r: Result<Parsed<string>, Failure>)
    requires Cursor(ts, pos)
    ensures r.Ok? ==> pos < r.value.pos < |ts|
    decreases |ts| - pos, 4
  {
    var operator := Match(ts, pos, [BANG, MINUS]);
    if operator.value then
      var right :- Unary(ts, c, operator.pos);
      Ok(Parsed((if ts[pos].kind == BANG then "not " else "-") + right.value, right.pos))
    else Call(ts, c, pos)
  }

  /** `call`: a primary, then the loop over argument lists and indexes. */
  function Call(ts: seq<Token>, c: Constants, pos: nat): (r: Result<Parsed<string>, Failure>)
    requires Cursor(ts, pos)
    ensures r.Ok? ==> pos < r.value.pos < |ts|
    decreases |ts| - pos, 3
  {
    var e :- Primary(ts, c, pos);
    CallFrom(ts, c, e.pos, e.value)
  }

  /** The loop of `call`: `(` starts an argument list, `[` an index, anything else ends it. */
  function CallFrom(ts: seq<Token>, c: Constants, pos: nat, acc: string): (r: Result<Parsed<string>, Failure>)
    requires Cursor(ts, pos)
    ensures r.Ok? ==> pos <= r.value.pos < |ts|
    decreases |ts| - pos, 3
  {
    var paren := Match(ts, pos, [LEFT_PAREN]);
    if paren.value then
      var e :- FinishCall(ts, c, paren.pos, acc);
      CallFrom(ts, c, e.pos, e.value)
    else
    var bracket := Match(ts, pos, [LEFT_BRACKET]);
    if bracket.value then
      var e :- FinishIndex(ts, c, bracket.pos, acc);
      CallFrom(ts, c, e.pos, e.value)
    else Ok(Parsed(acc, pos))
  }

  /** `finishCall`, after `(`: the callee, then the arguments, each after one space. */
  function FinishCall(ts: seq<Token>, c: Constants, pos: nat, callee: string): (r: Result<Parsed<string>, Failure>)
    requires Cursor(ts, pos)
    ensures r.Ok? ==> pos < r.value.pos < |ts|
    decreases |ts| - pos, 20
  {
    var args :- if Check(ts, pos, [RIGHT_PAREN]) then Ok(Parsed([], pos)) else ExpressionsFrom(ts, c, pos, []);
    var close :- Consume(ts, args.pos, RIGHT_PAREN, ExpectParenAfterArguments);
    Ok(Parsed(CallText(callee, args.value), close.pos))
  }

  /** `finishIndex`, after `[`: `item index callee`. */
  function FinishIndex(ts: seq<Token>, c: Constants, pos: nat, callee: string): (r: Result<Parsed<string>, Failure>)
    requires Cursor(ts, pos)
    ensures r.Ok? ==> pos < r.value.pos < |ts|
    decreases |ts| - pos, 19
  {
    var index :- Expression(ts, c, pos);
    var close :- Consume(ts, index.pos, RIGHT_BRACKET, ExpectBracketAfterIndex);
    Ok(Parsed(IndexText(index.value, callee), close.pos))
  }

  /** The comma-separated expression loop of `finishCall` and of list displays: an expression, more while a comma follows. */
  function ExpressionsFrom(ts: seq<Token>, c: Constants, pos: nat, acc: seq<string>): (r: Result<Parsed<seq<string>>, Failure>)
    requires Cursor(ts, pos)
    ensures r.Ok? ==> pos < r.value.pos < |ts| && |acc| < |r.value.value|
    decreases |ts| - pos, 19
  {
    var e :- Expression(ts, c, pos);
    var comma := Match(ts, e.pos, [COMMA]);
    if comma.value then ExpressionsFrom(ts, c, comma.pos, acc + [e.value])
    else Ok(Parsed(acc + [e.value], comma.pos))
  }

  /** The text a literal value is inlined as, or the error its `toString` throws. */
  function Serialise(value: Option<V.Value>, token: Token): (r: Result<string, Failure>)
    ensures r.Err? <==> value.None?
    ensures r.Ok? ==> r.value == V.ToText(value.value)
    ensures r.Err? ==> r.error == UndefinedLiteral(token)
  {
    match value
    case Some(v) => Ok(V.ToText(v))
    case None => Err(UndefinedLiteral(token))
  }

  /** `primary`. */
  function Primary(ts: seq<Token>, c: Constants, pos: nat): (r: Result<Parsed<string>, Failure>)
    requires Cursor(ts, pos)
    ensures r.Ok? ==> pos < r.value.pos < |ts|
    decreases |ts| - pos, 2
  {
    var t := ts[pos];
    var atFalse := Match(ts, pos, [FALSE]);
    if atFalse.value then Ok(Parsed("false", atFalse.pos))
    else
    var atTrue := Match(ts, pos, [TRUE]);
    if atTrue.value then Ok(Parsed("true", atTrue.pos))
    else
    var value := Match(ts, pos, [NUMBER, STRING]);
    if value.value then
      var text :- Serialise(t.literal, t);
      Ok(Parsed(text, value.pos))
    else
    var name := Match(ts, pos, [IDENTIFIER]);
    if name.value then
      if t.lexeme in c then
        var text :- Serialise(c[t.lexeme], t);
        Ok(Parsed(text, name.pos))
      else Ok(Parsed(t.lexeme, name.pos))
    else
    var paren := Match(ts, pos, [LEFT_PAREN]);
    if paren.value then
      var e :- Expression(ts, c, paren.pos);
      var close :- Consume(ts, e.pos, RIGHT_PAREN, ExpectParenAfterExpression);
      Ok(Parsed("(" + e.value + ")", close.pos))
    else
    var bracket := Match(ts, pos, [LEFT_BRACKET]);
    if bracket.value then ListDisplay(ts, c, bracket.pos)
    else Err(Syntax(ExpectExpression, t))
  }

  /** The list display of `primary`, after `[`. */
  function ListDisplay(ts: seq<Token>, c: Constants, pos: nat): (r: Result<Parsed<string>, Failure>)
    requires Cursor(ts, pos)
    ensures r.Ok? ==> pos < r.value.pos < |ts|
    decreases |ts| - pos, 20
  {
    var elements :- if Check(ts, pos, [RIGHT_BRACKET]) then Ok(Parsed([], pos))
                    else ExpressionsFrom(ts, c, pos, []);
    var close :- Consume(ts, elements.pos, RIGHT_BRACKET, ExpectBracketAfterElements);
    Ok(Parsed(ListDisplayText(elements.value), close.pos))
  }

  // ----- The whole pipeline -----

  /** `new Compiler(source).compile()`: the scanner's tokens, compiled from the first. */
  function Transpile(source: string): Result<string, Failure> {
    var ts :- SM.Scan(source);
    Compile(ts)
  }
}

/**
 * The `Compiler` class of compiler.ts: a cursor into the scanner's tokens and
 * the map of declared constants, both updated in place while the recursive
 * descent emits the output text. Every method is proved to return what the
 * production of ParseModel of the same name yields, and to leave the cursor
 * (and the constants) where that production says.
 */
module Compiling {
  import opened Wrappers
  import opened Tokens
  import opened Diagnostics
  import V = Values
  import PM = ParseModel
  import Scanning

  /**
   * A method's result and cursor agree with the production `m` of the model:
   * the same value and the cursor after it, or the same error.
   */
  predicate Follows<T(==)>(r: Result<T, Failure>, m: Result<PM.Parsed<T>, Failure>, pos: nat) {
    if m.Ok? then r == Ok(m.value.value) && pos == m.value.pos else r == Err(m.error)
  }

  class Compiler {
    const tokens: seq<Token>
    var current: nat
    var constants: PM.Constants

    /** The scanner's tokens, which always end with EOF; scanning itself is done by `Transpile`. */
    constructor(tokens: seq<Token>)
      requires PM.Terminated(tokens)
      ensures this.tokens == tokens && current == 0 && constants == map[]
    {
      this.tokens := tokens;
      current := 0;
      constants := map[];
    }

    function Peek(): Token
      reads this
      requires PM.Cursor(tokens, current)
    {
      tokens[current]
    }

    function Previous(): Token
      reads this
      requires 0 < current <= |tokens|
    {
      tokens[current - 1]
    }

    predicate CheckType(kind: TokenType)
      reads this
      requires PM.Cursor(tokens, current)
    {
      Peek().kind == kind
    }

    predicate Check(kinds: seq<TokenType>)
      reads this
      requires PM.Cursor(tokens, current)
    {
      exists i | 0 <= i < |kinds| :: CheckType(kinds[i])
    }

    predicate IsAtEnd()
      reads this
      requires PM.Cursor(tokens, current)
    {
      Peek().kind == EOF
    }

    /** `next`: the current token, and the cursor one further even at EOF. */
    method Next() returns (t: Token)
      requires PM.Cursor(tokens, current)
      modifies this`current
      ensures t == tokens[old(current)] && current == old(current) + 1
    {
      t := tokens[current];
      current := current + 1;
    }

    method Advance()
      requires PM.Cursor(tokens, current)
      modifies this`current
      ensures current == PM.Advance(tokens, old(current))
    {
      if !IsAtEnd() {
        current := current + 1;
      }
    }

    method MatchType(kind: TokenType) returns (matched: bool)
      requires PM.Cursor(tokens, current)
      modifies this`current
      ensures PM.Match(tokens, old(current), [kind]) == PM.Parsed(matched, current)
    {
      if CheckType(kind) {
        Advance();
        return true;
      }
      return false;
    }

    /** `match`: the first kind of `kinds` that the current token has is consumed. With one kind it is `matchType`, which the callers use directly. */
    method Match(kinds: seq<TokenType>) returns (matched: bool)
      requires PM.Cursor(tokens, current)
      modifies this`current
      ensures PM.Match(tokens, old(current), kinds) == PM.Parsed(matched, current)
    {
      var i := 0;
      while i < |kinds|
        invariant i <= |kinds| && current == old(current)
        invariant tokens[current].kind !in kinds[..i]
      {
        matched := MatchType(kinds[i]);
        if matched {
          return;
        }
        i := i + 1;
      }
      assert kinds[..i] == kinds;
      return false;
    }

    method Consume(kind: TokenType, message: Complaint) returns (r: Result<Token, Failure>)
      requires PM.Cursor(tokens, current)
      modifies this`current
      ensures Follows(r, PM.Consume(tokens, old(current), kind, message), current)
    {
      if CheckType(kind) {
        var t := Next();
        return Ok(t);
      }
      return Err(Syntax(message, Peek()));
    }

    // ----- Top level -----

    /** `compile`: the texts of the declarations up to EOF, concatenated. */
    method Compile() returns (r: Result<string, Failure>)
      requires PM.Cursor(tokens, current)
      modifies this
      ensures r == PM.CompileFrom(tokens, old(constants), old(current), "")
      ensures r.Ok? ==> PM.Cursor(tokens, current) && IsAtEnd()
    {
      var statements := "";
      while !IsAtEnd()
        invariant PM.Cursor(tokens, current)
        invariant PM.CompileFrom(tokens, constants, current, statements) == PM.CompileFrom(tokens, old(constants), old(current), "")
        decreases |tokens| - current
      {
        var g :- Global();
        statements := statements + g;
      }
      return Ok(statements);
    }

    method Global() returns (r: Result<string, Failure>)
      requires PM.Cursor(tokens, current)
      modifies this
      ensures var m := PM.Global(tokens, old(constants), old(current));
        if m.Ok? then r == Ok(m.value.text) && current == m.value.pos && constants == m.value.constants
        else r == Err(m.error)
    {
      var m := MatchType(FUNCTION);
      if m {
        r := FunctionDeclaration();
        return;
      }
      m := MatchType(CONST);
      if m {
        r := ConstDeclaration();
        return;
      }
      m := MatchType(NEWLINE);
      if m {
        return Ok("\n");
      }
      return Err(Syntax(ExpectedDeclaration, Peek()));
    }

    method FunctionDeclaration() returns (r: Result<string, Failure>)
      requires PM.Cursor(tokens, current)
      modifies this`current
      ensures Follows(r, PM.FunctionDeclaration(tokens, constants, old(current)), current)
    {
      var signature :- Signature();
      var body :- Block();
      return Ok(PM.FunctionText(signature.0, signature.1, body));
    }

    /** The name and the parameters of a function, up to the `{` before its body. */
    method Signature() returns (r: Result<(string, seq<string>), Failure>)
      requires PM.Cursor(tokens, current)
      modifies this`current
      ensures Follows(r, PM.Signature(tokens, old(current)), current)
    {
      var name :- Consume(IDENTIFIER, ExpectedFunctionName);
      var open :- Consume(LEFT_PAREN, ExpectedParenAfterFunctionName);
      ghost var first := current;
      var parameters: seq<string> := [];
      if !Check([RIGHT_PAREN]) {
        while true
          invariant PM.Cursor(tokens, current)
          invariant PM.ParametersFrom(tokens, current, parameters) == PM.ParametersFrom(tokens, first, [])
          decreases |tokens| - current
        {
          var p :- Consume(IDENTIFIER, ExpectedParameterName);
          parameters := parameters + [p.lexeme];
          var comma := MatchType(COMMA);
          if !comma {
            break;
          }
        }
      }
      var close :- Consume(RIGHT_PAREN, ExpectedParenAfterParameters);
      var brace :- Consume(LEFT_BRACE, ExpectedBraceBeforeFunctionBody);
      return Ok((name.lexeme, parameters));
    }

    method ConstDeclaration() returns (r: Result<string, Failure>)
      requires PM.Cursor(tokens, current)
      modifies this
      ensures var m := PM.ConstDeclaration(tokens, old(constants), old(current));
        if m.Ok? then r == Ok(m.value.text) && current == m.value.pos && constants == m.value.constants
        else r == Err(m.error)
    {
      var name :- Consume(IDENTIFIER, ExpectedConstName);
      var equals :- Consume(EQUAL, ExpectedEqualAfterConstName);
      r := ConstValue(name.lexeme);
    }

    method ConstValue(name: string) returns (r: Result<string, Failure>)
      requires PM.Cursor(tokens, current)
      modifies this
      ensures var m := PM.ConstValue(tokens, old(constants), old(current), name);
        if m.Ok? then r == Ok(m.value.text) && current == m.value.pos && constants == m.value.constants
        else r == Err(m.error)
    {
      var value :- Literal();
      var newline :- Consume(NEWLINE, ExpectedNewlineAfterConstValue);
      constants := constants[name := value];
      return Ok("");
    }

    method Literal() returns (r: Result<Option<V.Value>, Failure>)
      requires PM.Cursor(tokens, current)
      modifies this`current
      ensures Follows(r, PM.Literal(tokens, old(current)), current)
      decreases |tokens| - current, 0
    {
      var m := Match([NUMBER, STRING]);
      if m {
        return Ok(Previous().literal);
      }
      m := MatchType(TRUE);
      if m {
        return Ok(Some(V.Boolean(true)));
      }
      m := MatchType(FALSE);
      if m {
        return Ok(Some(V.Boolean(false)));
      }
      m := MatchType(LEFT_BRACKET);
      if m {
        r := ListLiteral();
        return;
      }
      return Err(Syntax(ExpectedLiteral, Peek()));
    }

    /** The list loop of `literal`, after `[`. */
    method ListLiteral() returns (r: Result<Option<V.Value>, Failure>)
      requires PM.Cursor(tokens, current)
      modifies this`current
      ensures Follows(r, PM.ListLiteral(tokens, old(current)), current)
      decreases |tokens| - current, 2
    {
      var values: seq<Option<V.Value>> := [];
      while !Check([RIGHT_BRACKET])
        invariant PM.Cursor(tokens, current)
        invariant PM.LiteralsFrom(tokens, current, values) == PM.LiteralsFrom(tokens, old(current), [])
        decreases |tokens| - current
      {
        var v :- Literal();
        values := values + [v];
        var closed := MatchType(RIGHT_BRACKET);
        if closed {
          break;
        }
        var comma :- Consume(COMMA, ExpectedCommaAfterValue);
      }
      return Ok(match PM.Defined(values) case Some(vs) => Some(V.List(vs)) case None => None);
    }

    // ----- Statements -----

    method Block() returns (r: Result<string, Failure>)
      requires PM.Cursor(tokens, current)
      modifies this`current
      ensures Follows(r, PM.Block(tokens, constants, old(current)), current)
      decreases |tokens| - current, 24
    {
      var statements := "";
      while !Check([RIGHT_BRACE]) && !IsAtEnd()
        invariant PM.Cursor(tokens, current)
        invariant PM.BlockFrom(tokens, constants, current, statements) == PM.Block(tokens, constants, old(current))
        decreases |tokens| - current
      {
        var s :- Statement();
        statements := statements + s;
      }
      var brace :- Consume(RIGHT_BRACE, ExpectedBraceAfterBlock);
      return Ok(statements);
    }

    method Statement() returns (r: Result<string, Failure>)
      requires PM.Cursor(tokens, current)
      modifies this`current
      ensures Follows(r, PM.Statement(tokens, constants, old(current)), current)
      decreases |tokens| - current, 22
    {
      var m := MatchType(FOREACH);
      if m {
        r := ForeachStatement();
        return;
      }
      m := MatchType(IF);
      if m {
        r := IfStatement();
        return;
      }
      m := MatchType(RETURN);
      if m {
        r := ReturnStatement();
        return;
      }
      m := MatchType(WHILE);
      if m {
        r := WhileStatement();
        return;
      }
      m := MatchType(NEWLINE);
      if m {
        return Ok("\n");
      }
      m := MatchType(LET);
      if m {
        r := Declaration();
        return;
      }
      r := ExpressionStatement();
    }

    method Declaration() returns (r: Result<string, Failure>)
      requires PM.Cursor(tokens, current)
      modifies this`current
      ensures Follows(r, PM.Declaration(tokens, constants, old(current)), current)
      decreases |tokens| - current, 22
    {
      var name :- Consume(IDENTIFIER, ExpectedVariableName);
      var equals :- Consume(EQUAL, ExpectedEqualAfterVariableName);
      var value :- Expression();
      var newline :- Consume(NEWLINE, ExpectedNewlineAfterVariableValue);
      return Ok(PM.LetText(name.lexeme, value));
    }

    method ForeachStatement() returns (r: Result<string, Failure>)
      requires PM.Cursor(tokens, current)
      modifies this`current
      ensures Follows(r, PM.Foreach(tokens, constants, old(current)), current)
      decreases |tokens| - current, 22
    {
      var name :- Consume(IDENTIFIER, ExpectedForeachName);
      var into :- Consume(IN, ExpectedInAfterForeachName);
      var list :- Expression();
      r := ForeachBody(name.lexeme, list);
    }

    method ForeachBody(name: string, list: string) returns (r: Result<string, Failure>)
      requires PM.Cursor(tokens, current)
      modifies this`current
      ensures Follows(r, PM.ForeachBody(tokens, constants, old(current), name, list), current)
      decreases |tokens| - current, 25
    {
      var brace :- Consume(LEFT_BRACE, ExpectedBraceBeforeForeachBody);
      var body :- Block();
      return Ok(PM.ForeachText(name, list, body));
    }

    method IfStatement() returns (r: Result<string, Failure>)
      requires PM.Cursor(tokens, current)
      modifies this`current
      ensures Follows(r, PM.If(tokens, constants, old(current)), current)
      decreases |tokens| - current, 22
    {
      var open :- Consume(LEFT_PAREN, ExpectedParenAfterIf);
      var condition :- Expression();
      var close :- Consume(RIGHT_PAREN, ExpectedParenAfterIfCondition);
      r := IfBranches(condition);
    }

    method IfBranches(condition: string) returns (r: Result<string, Failure>)
      requires PM.Cursor(tokens, current)
      modifies this`current
      ensures Follows(r, PM.IfBranches(tokens, constants, old(current), condition), current)
      decreases |tokens| - current, 25
    {
      var thenBranch :- Block();
      var elseBranch := "";
      var m := MatchType(ELSE);
      if m {
        elseBranch :- Block();
      }
      return Ok(PM.IfText(condition, thenBranch, elseBranch));
    }

    method ReturnStatement() returns (r: Result<string, Failure>)
      requires PM.Cursor(tokens, current)
      modifies this`current
      ensures Follows(r, PM.Return(tokens, constants, old(current)), current)
      decreases |tokens| - current, 22
    {
      if Check([NEWLINE]) {
        return Ok("stop\n");
      }
      var value :- Expression();
      var newline :- Consume(NEWLINE, ExpectedNewlineAfterReturn);
      return Ok(PM.ReportText(value));
    }

    method WhileStatement() returns (r: Result<string, Failure>)
      requires PM.Cursor(tokens, current)
      modifies this`current
      ensures Follows(r, PM.While(tokens, constants, old(current)), current)
      decreases |tokens| - current, 22
    {
      var open :- Consume(LEFT_PAREN, ExpectedParenAfterWhile);
      var condition :- Expression();
      var close :- Consume(RIGHT_PAREN, ExpectedParenAfterWhileCondition);
      var body :- Block();
      return Ok(PM.WhileText(condition, body));
    }

    method ExpressionStatement() returns (r: Result<string, Failure>)
      requires PM.Cursor(tokens, current)
      modifies this`current
      ensures Follows(r, PM.ExpressionStatement(tokens, constants, old(current)), current)
      decreases |tokens| - current, 21
    {
      var expression :- Expression();
      var newline :- Consume(NEWLINE, ExpectedNewlineAfterExpression);
      return Ok(expression + "\n");
    }

    // ----- Expressions -----

    method Expression() returns (r: Result<string, Failure>)
      requires PM.Cursor(tokens, current)
      modifies this`current
      ensures Follows(r, PM.Expression(tokens, constants, old(current)), current)
      decreases |tokens| - current, 18
    {
      r := Assignment();
    }

    method Assignment() returns (r: Result<string, Failure>)
      requires PM.Cursor(tokens, current)
      modifies this`current
      ensures Follows(r, PM.Assignment(tokens, constants, old(current)), current)
      decreases |tokens| - current, 17
    {
      var expression :- Binary(8);
      var m := MatchType(EQUAL);
      if m {
        var equals := Previous();
        var value :- Assignment();
        // The token tested is the `=` just consumed, never an identifier.
        return Err(Syntax(InvalidAssignmentTarget, equals));
      }
      return Ok(expression);
    }

    method Binary(level: nat) returns (r: Result<string, Failure>)
      requires PM.Cursor(tokens, current) && 3 <= level <= 8
      modifies this`current
      ensures Follows(r, PM.Binary(tokens, constants, old(current), level), current)
      decreases |tokens| - current, 2 * level
    {
      ghost var goal := PM.Binary(tokens, constants, current, level);
      var expression :- Operand(level);
      while true
        invariant PM.Cursor(tokens, current)
        invariant PM.BinaryFrom(tokens, constants, current, level, expression) == goal
        decreases |tokens| - current
      {
        ghost var pos := current;
        var m := Match(PM.Operators(level));
        if !m {
          break;
        }
        assert PM.Check(tokens, pos, PM.Operators(level));
        var operator := Previous();
        assert current == pos + 1 && operator == tokens[pos];
        ghost var left := expression;
        var right :- Operand(level);
        assert PM.Operand(tokens, constants, pos + 1, level) == Ok(PM.Parsed(right, current));
        expression := PM.OperatorText(operator.kind, expression, right);
        assert PM.BinaryFrom(tokens, constants, pos, level, left) == PM.BinaryFrom(tokens, constants, current, level, expression);
      }
      return Ok(expression);
    }

    method Operand(level: nat) returns (r: Result<string, Failure>)
      requires PM.Cursor(tokens, current) && 3 <= level <= 8
      modifies this`current
      ensures Follows(r, PM.Operand(tokens, constants, old(current), level), current)
      decreases |tokens| - current, 2 * level - 1
    {
      if level == 3 {
        r := Unary();
      } else {
        r := Binary(level - 1);
      }
    }

    method Unary() returns (r: Result<string, Failure>)
      requires PM.Cursor(tokens, current)
      modifies this`current
      ensures Follows(r, PM.Unary(tokens, constants, old(current)), current)
      decreases |tokens| - current, 4
    {
      var m := Match([BANG, MINUS]);
      if m {
        var operator := Previous();
        var right :- Unary();
        if operator.kind == BANG {
          return Ok("not " + right);
        } else {
          return Ok("-" + right);
        }
      }
      r := Call();
    }

    method Call() returns (r: Result<string, Failure>)
      requires PM.Cursor(tokens, current)
      modifies this`current
      ensures Follows(r, PM.Call(tokens, constants, old(current)), current)
      decreases |tokens| - current, 3
    {
      var expression :- Primary();
      while true
        invariant PM.Cursor(tokens, current)
        invariant PM.CallFrom(tokens, constants, current, expression) == PM.Call(tokens, constants, old(current))
        decreases |tokens| - current
      {
        var m := MatchType(LEFT_PAREN);
        if m {
          expression :- FinishCall(expression);
        } else {
          m := MatchType(LEFT_BRACKET);
          if m {
            expression :- FinishIndex(expression);
          } else {
            break;
          }
        }
      }
      return Ok(expression);
    }

    method FinishCall(callee: string) returns (r: Result<string, Failure>)
      requires PM.Cursor(tokens, current)
      modifies this`current
      ensures Follows(r, PM.FinishCall(tokens, constants, old(current), callee), current)
      decreases |tokens| - current, 20
    {
      var args: seq<string> := [];
      if !Check([RIGHT_PAREN]) {
        ghost var first := current;
        while true
          invariant PM.Cursor(tokens, current)
          invariant PM.ExpressionsFrom(tokens, constants, current, args) == PM.ExpressionsFrom(tokens, constants, first, [])
          decreases |tokens| - current
        {
          var e :- Expression();
          args := args + [e];
          var comma := MatchType(COMMA);
          if !comma {
            break;
          }
        }
      }
      var close :- Consume(RIGHT_PAREN, ExpectParenAfterArguments);
      return Ok(PM.CallText(callee, args));
    }

    method FinishIndex(callee: string) returns (r: Result<string, Failure>)
      requires PM.Cursor(tokens, current)
      modifies this`current
      ensures Follows(r, PM.FinishIndex(tokens, constants, old(current), callee), current)
      decreases |tokens| - current, 19
    {
      var index :- Expression();
      var close :- Consume(RIGHT_BRACKET, ExpectBracketAfterIndex);
      return Ok(PM.IndexText(index, callee));
    }

    method Primary() returns (r: Result<string, Failure>)
      requires PM.Cursor(tokens, current)
      modifies this`current
      ensures Follows(r, PM.Primary(tokens, constants, old(current)), current)
      decreases |tokens| - current, 2
    {
      var m := MatchType(FALSE);
      if m {
        return Ok("false");
      }
      m := MatchType(TRUE);
      if m {
        return Ok("true");
      }
      m := Match([NUMBER, STRING]);
      if m {
        return PM.Serialise(Previous().literal, Previous());
      }
      m := MatchType(IDENTIFIER);
      if m {
        var name := Previous();
        if name.lexeme in constants {
          return PM.Serialise(constants[name.lexeme], name);
        }
        return Ok(name.lexeme);
      }
      m := MatchType(LEFT_PAREN);
      if m {
        var expression :- Expression();
        var close :- Consume(RIGHT_PAREN, ExpectParenAfterExpression);
        return Ok("(" + expression + ")");
      }
      m := MatchType(LEFT_BRACKET);
      if m {
        r := ListDisplay();
        return;
      }
      return Err(Syntax(ExpectExpression, Peek()));
    }

    /** A list display after `[`: comma-separated expressions up to `]`. */
    method ListDisplay() returns (r: Result<string, Failure>)
      requires PM.Cursor(tokens, current)
      modifies this`current
      ensures Follows(r, PM.ListDisplay(tokens, constants, old(current)), current)
      decreases |tokens| - current, 20
    {
      var elements: seq<string> := [];
      if !Check([RIGHT_BRACKET]) {
        while true
          invariant PM.Cursor(tokens, current)
          invariant PM.ExpressionsFrom(tokens, constants, current, elements) == PM.ExpressionsFrom(tokens, constants, old(current), [])
          decreases |tokens| - current
        {
          var e :- Expression();
          elements := elements + [e];
          var comma := MatchType(COMMA);
          if !comma {
            break;
          }
        }
      }
      var close :- Consume(RIGHT_BRACKET, ExpectBracketAfterElements);
      return Ok(PM.ListDisplayText(elements));
    }
  }

  /** `new Compiler(source).compile()`: scan the source, then compile its tokens from the first. */
  method Transpile(source: string) returns (r: Result<string, Failure>)
    ensures r == PM.Transpile(source)
  {
    var scanner := new Scanning.Scanner(source);
    var tokens :- scanner.ScanTokens();
    var compiler := new Compiler(tokens);
    r := compiler.Compile();
  }
}

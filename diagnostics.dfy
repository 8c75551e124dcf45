/**
 * The ways scanning and compiling stop: the errors thrown by scanner.ts and
 * compiler.ts, each carrying what the thrown error carries.
 */
module Diagnostics {
  import opened Strings
  import opened Tokens

  /** The complaints the compiler raises a syntax error with, one per message of compiler.ts. */
  datatype Complaint =
    | ExpectBracketAfterElements
    | ExpectBracketAfterIndex
    | ExpectExpression
    | ExpectParenAfterArguments
    | ExpectParenAfterExpression
    | ExpectedBraceAfterBlock
    | ExpectedBraceBeforeForeachBody
    | ExpectedBraceBeforeFunctionBody
    | ExpectedCommaAfterValue
    | ExpectedConstName
    | ExpectedDeclaration
    | ExpectedEqualAfterConstName
    | ExpectedEqualAfterVariableName
    | ExpectedForeachName
    | ExpectedFunctionName
    | ExpectedInAfterForeachName
    | ExpectedLiteral
    | ExpectedNewlineAfterConstValue
    | ExpectedNewlineAfterExpression
    | ExpectedNewlineAfterReturn
    | ExpectedNewlineAfterVariableValue
    | ExpectedParameterName
    | ExpectedParenAfterFunctionName
    | ExpectedParenAfterIf
    | ExpectedParenAfterIfCondition
    | ExpectedParenAfterParameters
    | ExpectedParenAfterWhile
    | ExpectedParenAfterWhileCondition
    | ExpectedVariableName
    | InvalidAssignmentTarget

  datatype Failure =
    /** A character no token starts with (a `CompileError` with an ILLEGAL token). */
    | Illegal(message: string, token: Token)
    /** The input ends inside a string literal (a plain `Error`). */
    | Unterminated
    /** A syntax error of the compiler (`Compiler.error`) at the token it names. */
    | Syntax(complaint: Complaint, token: Token)
    /**
     * A NUMBER or STRING token without a literal value reached `toString`
     * (a `TypeError` of the run time); `token` is the token whose value was
     * serialised.
     */
    | UndefinedLiteral(token: Token)

  /**
   * The message a complaint is raised with about token `t`. Only the one for
   * a token that starts no declaration names the token itself, glued to the
   * message without a space.
   */
  function ComplaintText(c: Complaint, t: Token): string {
    match c
    case ExpectedDeclaration => "Expected function or const declaration" + t.lexeme
    case ExpectBracketAfterElements => "Expect ']' after elements."
    case ExpectBracketAfterIndex => "Expect ']' after index."
    case ExpectExpression => "Expect expression."
    case ExpectParenAfterArguments => "Expect ')' after arguments."
    case ExpectParenAfterExpression => "Expect ')' after expression."
    case ExpectedBraceAfterBlock => "Expected '}' after block"
    case ExpectedBraceBeforeForeachBody => "Expected '{' before foreach body"
    case ExpectedBraceBeforeFunctionBody => "Expected '{' before function body"
    case ExpectedCommaAfterValue => "Expected ',' after value"
    case ExpectedConstName => "Expected const name"
    case ExpectedEqualAfterConstName => "Expected '=' after const name"
    case ExpectedEqualAfterVariableName => "Expected '=' after variable name"
    case ExpectedForeachName => "Expected foreach name"
    case ExpectedFunctionName => "Expected function name"
    case ExpectedInAfterForeachName => "Expected 'in' after foreach name"
    case ExpectedLiteral => "Expected literal"
    case ExpectedNewlineAfterConstValue => "Expected newline after const value"
    case ExpectedNewlineAfterExpression => "Expected newline after expression"
    case ExpectedNewlineAfterReturn => "Expected newline after return"
    case ExpectedNewlineAfterVariableValue => "Expected newline after variable value"
    case ExpectedParameterName => "Expected parameter name"
    case ExpectedParenAfterFunctionName => "Expected '(' after function name"
    case ExpectedParenAfterIf => "Expected '(' after if"
    case ExpectedParenAfterIfCondition => "Expected ')' after if condition"
    case ExpectedParenAfterParameters => "Expected ')' after parameters"
    case ExpectedParenAfterWhile => "Expected '(' after while"
    case ExpectedParenAfterWhileCondition => "Expected ')' after while condition"
    case ExpectedVariableName => "Expected variable name"
    case InvalidAssignmentTarget => "Invalid assignment target"
  }

  /** The message of the error thrown. */
  function Message(f: Failure): string {
    match f
    case Illegal(m, _) => m
    case Unterminated => "Unterminated string."
    case Syntax(c, t) => "[line: " + IntText(t.line) + "] " + ComplaintText(c, t) + " at '" + t.lexeme + "'"
    case UndefinedLiteral(_) => "Cannot read properties of undefined (reading 'toString')"
  }

  /** A syntax error names the line and the offending lexeme around the message. */
  lemma SyntaxMessage(c: Complaint, t: Token)
    ensures var s := Message(Syntax(c, t));
      s[..7] == "[line: " && s[|s| - |t.lexeme| - 1..] == t.lexeme + "'"
  {
  }
}

/**
 * Properties of the parser-emitter functions of ParseModel: how the cursor
 * moves, what each declaration and statement emits, how the precedence chain
 * associates, and which inputs are rejected with which complaint.
 */
module ParseProperties {
  import opened Wrappers
  import opened Strings
  import opened Tokens
  import opened Diagnostics
  import V = Values
  import opened ParseModel
  import SM = ScanModel

  // ----- The cursor -----

  /** `advance` moves only off a token that is not EOF, and then by exactly one. */
  lemma AdvanceStopsAtEof(ts: seq<Token>, pos: nat)
    requires Cursor(ts, pos)
    ensures Advance(ts, pos) == pos + 1 <==> ts[pos].kind != EOF
    ensures ts[pos].kind == EOF ==> Advance(ts, pos) == pos
  {
  }

  /** `consume` never consumes the EOF token, so a cursor that was on a token stays on one. */
  lemma ConsumeKeepsCursor(ts: seq<Token>, pos: nat, kind: TokenType, message: Complaint)
    requires Cursor(ts, pos) && kind != EOF
    ensures var r := Consume(ts, pos, kind, message);
      r.Ok? ==> Cursor(ts, r.value.pos) && r.value.pos == pos + 1 && ts[pos].kind != EOF
  {
  }

  // ----- Top level -----

  /** A NEWLINE at the top level emits one newline and declares nothing. */
  lemma GlobalNewline(ts: seq<Token>, c: Constants, pos: nat)
    requires Cursor(ts, pos) && ts[pos].kind == NEWLINE
    ensures Global(ts, c, pos) == Ok(Emitted("\n", pos + 1, c))
  {
  }

  /**
   * Any other token than `function`, `const` or a NEWLINE at the top level is
   * rejected with "Expected function or const declaration", followed directly
   * by the token's lexeme.
   */
  lemma GlobalRejects(ts: seq<Token>, c: Constants, pos: nat)
    requires Cursor(ts, pos) && ts[pos].kind !in [FUNCTION, CONST, NEWLINE]
    ensures Global(ts, c, pos) == Err(Syntax(ExpectedDeclaration, ts[pos]))
    ensures ComplaintText(ExpectedDeclaration, ts[pos]) == "Expected function or const declaration" + ts[pos].lexeme
  {
    assert !Match(ts, pos, [FUNCTION]).value && !Match(ts, pos, [CONST]).value && !Match(ts, pos, [NEWLINE]).value;
  }

  /**
   * A `const` declaration emits nothing and sets its name, overwriting an
   * earlier value, to the literal after `=`; every other constant keeps its
   * value.
   */
  lemma ConstSets(ts: seq<Token>, c: Constants, pos: nat)
    requires Cursor(ts, pos) && ConstDeclaration(ts, c, pos).Ok?
    ensures var e := ConstDeclaration(ts, c, pos).value; var name := ts[pos].lexeme;
      && e.text == ""
      && ts[pos].kind == IDENTIFIER && ts[pos + 1].kind == EQUAL
      && e.constants.Keys == c.Keys + {name}
      && (forall k :: k in c && k != name ==> e.constants[k] == c[k])
      && Literal(ts, pos + 2) == Ok(Parsed(e.constants[name], e.pos - 1))
      && ts[e.pos - 1].kind == NEWLINE
  {
    var name :- assert Consume(ts, pos, IDENTIFIER, ExpectedConstName);
    var equals :- assert Consume(ts, name.pos, EQUAL, ExpectedEqualAfterConstName);
    var value :- assert Literal(ts, equals.pos);
    var newline :- assert Consume(ts, value.pos, NEWLINE, ExpectedNewlineAfterConstValue);
  }

  /** A global starting with `function` is a function declaration, kept as it is written. */
  lemma {:induction false} GlobalFunction(ts: seq<Token>, c: Constants, pos: nat)
    requires Cursor(ts, pos) && ts[pos].kind == FUNCTION
    ensures var f := FunctionDeclaration(ts, c, pos + 1);
      Global(ts, c, pos) == if f.Ok? then Ok(Emitted(f.value.value, f.value.pos, c)) else Err(f.error)
  {
  }

  /** A global starting with `const` is a constant declaration. */
  lemma {:induction false} GlobalConst(ts: seq<Token>, c: Constants, pos: nat)
    requires Cursor(ts, pos) && ts[pos].kind == CONST
    ensures Global(ts, c, pos) == ConstDeclaration(ts, c, pos + 1)
  {
    assert !Match(ts, pos, [FUNCTION]).value && Match(ts, pos, [CONST]).value;
  }

  /** Only a `const` declaration changes the constants, and no declaration removes one. */
  lemma {:induction false} GlobalKeepsConstants(ts: seq<Token>, c: Constants, pos: nat)
    requires Cursor(ts, pos) && Global(ts, c, pos).Ok?
    ensures var e := Global(ts, c, pos).value;
      && c.Keys <= e.constants.Keys
      && (ts[pos].kind != CONST ==> e.constants == c)
  {
    var k := ts[pos].kind;
    if k == FUNCTION {
      GlobalFunction(ts, c, pos);
    } else if k == CONST {
      GlobalConst(ts, c, pos);
      ConstSets(ts, c, pos + 1);
    } else if k == NEWLINE {
      GlobalNewline(ts, c, pos);
    } else {
      GlobalRejects(ts, c, pos);
    }
  }


  // ----- Constant literals -----

  /** `r` is a success with value `value` and the cursor at `pos` after it. */
  predicate Yields<T(==)>(r: Result<Parsed<T>, Failure>, value: T, pos: nat) {
    r.Ok? && r.value.value == value && r.value.pos == pos
  }

  /** `t` is a literal token standing for `v`. */
  predicate LiteralToken(t: Token, v: V.Value) {
    || (t.kind in [NUMBER, STRING] && t.literal == Some(v))
    || (t.kind == TRUE && v == V.Boolean(true))
    || (t.kind == FALSE && v == V.Boolean(false))
  }

  /** The tokens from `pos` are the literal tokens of `vs`, separated by commas and ended by `]`. */
  predicate FlatList(ts: seq<Token>, pos: nat, vs: seq<V.Value>)
    decreases |vs|
  {
    && |vs| > 0 && pos + 1 < |ts| && LiteralToken(ts[pos], vs[0])
    && if |vs| == 1 then ts[pos + 1].kind == RIGHT_BRACKET
       else ts[pos + 1].kind == COMMA && FlatList(ts, pos + 2, vs[1..])
  }

  /** Every value, as the defined elements of a list literal. */
  function Somes(vs: seq<V.Value>): (r: seq<Option<V.Value>>)
    ensures |r| == |vs|
  {
    if vs == [] then [] else [Some(vs[0])] + Somes(vs[1..])
  }

  lemma {:induction false} DefinedSomes(vs: seq<V.Value>)
    ensures Defined(Somes(vs)) == Some(vs)
  {
    if vs != [] {
      var s := Somes(vs);
      assert s[0] == Some(vs[0]) && s[1..] == Somes(vs[1..]);
      DefinedSomes(vs[1..]);
      assert [vs[0]] + vs[1..] == vs;
    }
  }

  /** A literal token is a literal on its own, one token long. */
  lemma {:induction false} LiteralOfToken(ts: seq<Token>, pos: nat, v: V.Value)
    requires Cursor(ts, pos) && LiteralToken(ts[pos], v)
    ensures Literal(ts, pos) == Ok(Parsed(Some(v), pos + 1))
  {
  }


  /** The list loop after a literal followed by `]`: the literal is the last element, and the `]` is consumed. */
  lemma LiteralsLast(ts: seq<Token>, pos: nat, acc: seq<Option<V.Value>>, v: Option<V.Value>, p: nat)
    requires Cursor(ts, pos) && ts[pos].kind != RIGHT_BRACKET
    requires Yields(Literal(ts, pos), v, p) && ts[p].kind == RIGHT_BRACKET
    ensures Yields(LiteralsFrom(ts, pos, acc), acc + [v], p + 1)
  {
  }

  /** The list loop after a literal followed by a comma: the literal is the next element, and the loop goes on after the comma. */
  lemma LiteralsNext(ts: seq<Token>, pos: nat, acc: seq<Option<V.Value>>, v: Option<V.Value>, p: nat)
    requires Cursor(ts, pos) && ts[pos].kind != RIGHT_BRACKET
    requires Yields(Literal(ts, pos), v, p) && ts[p].kind == COMMA
    ensures Cursor(ts, p + 1) && LiteralsFrom(ts, pos, acc) == LiteralsFrom(ts, p + 1, acc + [v])
  {
  }

  /** The first element of a flat list, when it is the last one. */
  lemma FlatLast(ts: seq<Token>, pos: nat, acc: seq<Option<V.Value>>, vs: seq<V.Value>)
    requires Cursor(ts, pos) && FlatList(ts, pos, vs) && |vs| == 1
    ensures Yields(LiteralsFrom(ts, pos, acc), acc + [Some(vs[0])], pos + 2)
  {
    LiteralOfToken(ts, pos, vs[0]);
    LiteralsLast(ts, pos, acc, Some(vs[0]), pos + 1);
  }

  /** The first element of a flat list, when more follow: the list loop goes on at the next element. */
  lemma FlatNext(ts: seq<Token>, pos: nat, acc: seq<Option<V.Value>>, vs: seq<V.Value>, out: seq<Option<V.Value>>, q: nat)
    requires Cursor(ts, pos) && FlatList(ts, pos, vs) && |vs| > 1
    requires Cursor(ts, pos + 2) && Yields(LiteralsFrom(ts, pos + 2, acc + [Some(vs[0])]), out, q)
    ensures Yields(LiteralsFrom(ts, pos, acc), out, q)
  {
    LiteralOfToken(ts, pos, vs[0]);
    LiteralsNext(ts, pos, acc, Some(vs[0]), pos + 1);
  }

  /** The elements of a list literal are kept in the order they are written. */
  lemma {:induction false} LiteralsInOrder(ts: seq<Token>, pos: nat, acc: seq<Option<V.Value>>, vs: seq<V.Value>)
    requires Cursor(ts, pos) && FlatList(ts, pos, vs)
    ensures Yields(LiteralsFrom(ts, pos, acc), acc + Somes(vs), pos + 2 * |vs|)
    decreases |vs|
  {
    assert Somes(vs) == [Some(vs[0])] + Somes(vs[1..]);
    if |vs| == 1 {
      assert Somes(vs[1..]) == [];
      assert acc + Somes(vs) == acc + [Some(vs[0])];
      FlatLast(ts, pos, acc, vs);
    } else {
      assert Cursor(ts, pos + 2) && FlatList(ts, pos + 2, vs[1..]);
      LiteralsInOrder(ts, pos + 2, acc + [Some(vs[0])], vs[1..]);
      assert acc + [Some(vs[0])] + Somes(vs[1..]) == acc + Somes(vs);
      FlatNext(ts, pos, acc, vs, acc + Somes(vs), pos + 2 * |vs|);
    }
  }

  /** A list of literals after `[` is the LIST of their values, in order. */
  lemma ListLiteralInOrder(ts: seq<Token>, pos: nat, vs: seq<V.Value>)
    requires Cursor(ts, pos) && FlatList(ts, pos, vs)
    ensures Yields(ListLiteral(ts, pos), Some(V.List(vs)), pos + 2 * |vs|)
  {
    LiteralsInOrder(ts, pos, [], vs);
    assert [] + Somes(vs) == Somes(vs);
    DefinedSomes(vs);
  }

  /** `[]` is an empty list, and its `]` is left unconsumed. */
  lemma EmptyListUnconsumed(ts: seq<Token>, pos: nat)
    requires Cursor(ts, pos) && ts[pos].kind == RIGHT_BRACKET
    ensures Yields(ListLiteral(ts, pos), Some(V.List([])), pos)
  {
  }

  /** So `const name = []` fails: the newline is looked for at the `]`. */
  lemma EmptyListConstFails(ts: seq<Token>, c: Constants, pos: nat)
    requires Cursor(ts, pos + 3)
    requires ts[pos].kind == IDENTIFIER && ts[pos + 1].kind == EQUAL
    requires ts[pos + 2].kind == LEFT_BRACKET && ts[pos + 3].kind == RIGHT_BRACKET
    ensures ConstDeclaration(ts, c, pos) == Err(Syntax(ExpectedNewlineAfterConstValue, ts[pos + 3]))
  {
    assert Literal(ts, pos + 2) == ListLiteral(ts, pos + 3);
    EmptyListUnconsumed(ts, pos + 3);
  }

  /** And so does a list with a trailing comma, such as `const name = [1,]`. */
  lemma {:induction false} TrailingCommaConstFails(ts: seq<Token>, c: Constants, pos: nat, v: V.Value)
    requires Cursor(ts, pos + 5)
    requires ts[pos].kind == IDENTIFIER && ts[pos + 1].kind == EQUAL && ts[pos + 2].kind == LEFT_BRACKET
    requires LiteralToken(ts[pos + 3], v) && ts[pos + 4].kind == COMMA && ts[pos + 5].kind == RIGHT_BRACKET
    ensures ConstDeclaration(ts, c, pos) == Err(Syntax(ExpectedNewlineAfterConstValue, ts[pos + 5]))
  {
    LiteralOfToken(ts, pos + 3, v);
    LiteralsNext(ts, pos + 3, [], Some(v), pos + 4);
    assert Yields(LiteralsFrom(ts, pos + 5, [Some(v)]), [Some(v)], pos + 5);
    assert Literal(ts, pos + 2) == ListLiteral(ts, pos + 3);
  }

  // ----- Expressions -----

  /** The binary level an operator belongs to, from multiplication (3) to `or` (8); 0 for any other kind. */
  function LevelOf(kind: TokenType): nat {
    match kind
    case SLASH | STAR => 3
    case MINUS | PLUS => 4
    case GREATER | GREATER_EQUAL | LESS | LESS_EQUAL => 5
    case BANG_EQUAL | EQUAL_EQUAL => 6
    case AND => 7
    case OR => 8
    case _ => 0
  }

  /** Each operator belongs to exactly one level, the one `LevelOf` names. */
  lemma OperatorLevel(kind: TokenType, level: nat)
    requires 3 <= level <= 8
    ensures kind in Operators(level) <==> LevelOf(kind) == level
  {
  }

  /** A kind that continues no expression: no operator, no `=`, and neither `(` nor `[`. */
  predicate Ends(kind: TokenType) {
    kind !in [LEFT_PAREN, LEFT_BRACKET, EQUAL] && LevelOf(kind) == 0
  }

  /** A primary followed by neither `(` nor `[` is a whole unary expression. */
  lemma UnaryOfPrimary(ts: seq<Token>, c: Constants, pos: nat, s: string, q: nat)
    requires Cursor(ts, pos) && Yields(Primary(ts, c, pos), s, q)
    requires ts[q].kind !in [LEFT_PAREN, LEFT_BRACKET]
    ensures Yields(Unary(ts, c, pos), s, q)
  {
    assert ts[pos].kind !in [BANG, MINUS];
    assert Yields(CallFrom(ts, c, q, s), s, q);
  }

  /** An operand followed by no operator of its level is the whole level. */
  lemma BinaryOfOperand(ts: seq<Token>, c: Constants, pos: nat, level: nat, s: string, q: nat)
    requires Cursor(ts, pos) && 3 <= level <= 8
    requires Yields(Operand(ts, c, pos, level), s, q) && ts[q].kind !in Operators(level)
    ensures Yields(Binary(ts, c, pos, level), s, q)
  {
    assert Yields(BinaryFrom(ts, c, q, level, s), s, q);
  }

  /**
   * The operand of a level, followed by no operator of that level or the
   * levels up to `high`, is the whole expression of level `high`.
   */
  lemma {:induction false} Lift(ts: seq<Token>, c: Constants, pos: nat, level: nat, high: nat, s: string, q: nat)
    requires Cursor(ts, pos) && 3 <= level <= high <= 8
    requires Yields(Operand(ts, c, pos, level), s, q)
    requires !(level <= LevelOf(ts[q].kind) <= high)
    ensures Yields(Binary(ts, c, pos, high), s, q)
    decreases high - level
  {
    OperatorLevel(ts[q].kind, level);
    BinaryOfOperand(ts, c, pos, level, s, q);
    if level < high {
      assert Yields(Operand(ts, c, pos, level + 1), s, q);
      Lift(ts, c, pos, level + 1, high, s, q);
    }
  }


  /** An `or` expression not followed by `=` is a whole expression. */
  lemma ExpressionOfBinary(ts: seq<Token>, c: Constants, pos: nat, s: string, q: nat)
    requires Cursor(ts, pos) && Yields(Binary(ts, c, pos, 8), s, q) && ts[q].kind != EQUAL
    ensures Yields(Expression(ts, c, pos), s, q)
  {
  }

  /** A primary followed by a token that continues no expression is a whole expression. */
  lemma ExpressionOfPrimary(ts: seq<Token>, c: Constants, pos: nat, s: string, q: nat)
    requires Cursor(ts, pos) && Yields(Primary(ts, c, pos), s, q) && Ends(ts[q].kind)
    ensures Yields(Expression(ts, c, pos), s, q)
  {
    UnaryOfPrimary(ts, c, pos, s, q);
    Lift(ts, c, pos, 3, 8, s, q);
    ExpressionOfBinary(ts, c, pos, s, q);
  }

  /**
   * A binary level is left-associative: `a op b op d` is the text of
   * `(a op b) op d`, each `op` written as its own level writes it.
   */
  lemma {:induction false} LeftAssociative(ts: seq<Token>, c: Constants, pos: nat, level: nat, a: string, b: string, d: string, p: nat, q: nat, r: nat)
    requires Cursor(ts, pos) && 3 <= level <= 8
    requires Yields(Operand(ts, c, pos, level), a, p) && ts[p].kind in Operators(level)
    requires Yields(Operand(ts, c, p + 1, level), b, q) && ts[q].kind in Operators(level)
    requires Yields(Operand(ts, c, q + 1, level), d, r) && ts[r].kind !in Operators(level)
    ensures Yields(Binary(ts, c, pos, level), OperatorText(ts[q].kind, OperatorText(ts[p].kind, a, b), d), r)
  {
    var ab := OperatorText(ts[p].kind, a, b);
    assert Yields(BinaryFrom(ts, c, r, level, OperatorText(ts[q].kind, ab, d)), OperatorText(ts[q].kind, ab, d), r);
    assert BinaryFrom(ts, c, q, level, ab) == BinaryFrom(ts, c, r, level, OperatorText(ts[q].kind, ab, d));
    assert BinaryFrom(ts, c, p, level, a) == BinaryFrom(ts, c, q, level, ab);
  }

  /** `and` is written ` or `, exactly as `or` itself is. */
  lemma AndWrittenOr(ts: seq<Token>, c: Constants, pos: nat, a: string, b: string, p: nat, q: nat)
    requires Cursor(ts, pos)
    requires Yields(Operand(ts, c, pos, 7), a, p) && ts[p].kind == AND
    requires Yields(Operand(ts, c, p + 1, 7), b, q) && ts[q].kind !in [AND, OR]
    ensures Yields(Binary(ts, c, pos, 8), a + " or " + b, q)
  {
    assert Yields(BinaryFrom(ts, c, p, 7, a), a + " or " + b, q);
    Lift(ts, c, pos, 8, 8, a + " or " + b, q);
  }

  /** `!` is written `not ` and a unary minus `-`, before the operand's text. */
  lemma UnaryPrefix(ts: seq<Token>, c: Constants, pos: nat, s: string, q: nat)
    requires Cursor(ts, pos) && ts[pos].kind in [BANG, MINUS] && Yields(Unary(ts, c, pos + 1), s, q)
    ensures Yields(Unary(ts, c, pos), (if ts[pos].kind == BANG then "not " else "-") + s, q)
  {
  }

  /** An undeclared name followed by no operator below `level`, nor `(` or `[`, is an operand of `level` on its own. */
  lemma NameOperand(ts: seq<Token>, c: Constants, pos: nat, level: nat)
    requires Cursor(ts, pos + 1) && 3 < level <= 8
    requires ts[pos].kind == IDENTIFIER && ts[pos].lexeme !in c
    requires ts[pos + 1].kind !in [LEFT_PAREN, LEFT_BRACKET] && !(3 <= LevelOf(ts[pos + 1].kind) < level)
    ensures Yields(Operand(ts, c, pos, level), ts[pos].lexeme, pos + 1)
  {
    assert Yields(Primary(ts, c, pos), ts[pos].lexeme, pos + 1);
    UnaryOfPrimary(ts, c, pos, ts[pos].lexeme, pos + 1);
    Lift(ts, c, pos, 3, level - 1, ts[pos].lexeme, pos + 1);
  }

  lemma NotEqualText(a: string, b: string, d: string)
    ensures OperatorText(BANG_EQUAL, OperatorText(BANG_EQUAL, a, b), d) == "not not " + a + " = " + b + " = " + d
  {
  }

  /** `a != b != c` is written `not not a = b = c`: no parentheses, and `not` before the whole left side. */
  lemma NotEqualChain(ts: seq<Token>, c: Constants)
    requires Cursor(ts, 5)
    requires ts[0].kind == IDENTIFIER && ts[2].kind == IDENTIFIER && ts[4].kind == IDENTIFIER
    requires ts[0].lexeme !in c && ts[2].lexeme !in c && ts[4].lexeme !in c
    requires ts[1].kind == BANG_EQUAL && ts[3].kind == BANG_EQUAL && ts[5].kind == NEWLINE
    ensures Yields(Expression(ts, c, 0), "not not " + ts[0].lexeme + " = " + ts[2].lexeme + " = " + ts[4].lexeme, 5)
  {
    var a, b, d := ts[0].lexeme, ts[2].lexeme, ts[4].lexeme;
    NameOperand(ts, c, 0, 6);
    NameOperand(ts, c, 2, 6);
    NameOperand(ts, c, 4, 6);
    LeftAssociative(ts, c, 0, 6, a, b, d, 1, 3, 5);
    var s := OperatorText(BANG_EQUAL, OperatorText(BANG_EQUAL, a, b), d);
    Lift(ts, c, 0, 7, 8, s, 5);
    ExpressionOfBinary(ts, c, 0, s, 5);
    NotEqualText(a, b, d);
  }

  // ----- Calls, indexes and primaries -----

  /** `f()` is written `f ` with a trailing space. */
  lemma EmptyArguments(ts: seq<Token>, c: Constants, pos: nat, callee: string)
    requires Cursor(ts, pos) && ts[pos].kind == RIGHT_PAREN
    ensures Yields(FinishCall(ts, c, pos, callee), callee + " ", pos + 1)
  {
    assert Check(ts, pos, [RIGHT_PAREN]);
    assert CallText(callee, []) == callee + " ";
  }

  /** The argument loop at its last argument: the loop stops before the `)`. */
  lemma ArgumentsLast(ts: seq<Token>, c: Constants, pos: nat, acc: seq<string>, e: string, q: nat)
    requires Cursor(ts, pos) && Yields(Expression(ts, c, pos), e, q) && ts[q].kind != COMMA
    ensures Yields(ExpressionsFrom(ts, c, pos, acc), acc + [e], q)
  {
    assert !Match(ts, q, [COMMA]).value;
  }

  /** The argument loop at an argument followed by a comma goes on after the comma. */
  lemma ArgumentsNext(ts: seq<Token>, c: Constants, pos: nat, acc: seq<string>, e: string, p: nat, out: seq<string>, q: nat)
    requires Cursor(ts, pos) && Yields(Expression(ts, c, pos), e, p) && ts[p].kind == COMMA
    requires Cursor(ts, p + 1) && Yields(ExpressionsFrom(ts, c, p + 1, acc + [e]), out, q)
    ensures Yields(ExpressionsFrom(ts, c, pos, acc), out, q)
  {
    assert Match(ts, p, [COMMA]).pos == p + 1;
  }

  /** `f(a, b)` is written `f a b`. */
  lemma TwoArguments(ts: seq<Token>, c: Constants, pos: nat, callee: string, a: string, p: nat, b: string, q: nat)
    requires Cursor(ts, pos) && ts[pos].kind != RIGHT_PAREN
    requires Yields(Expression(ts, c, pos), a, p) && ts[p].kind == COMMA
    requires Cursor(ts, p + 1) && Yields(Expression(ts, c, p + 1), b, q) && ts[q].kind == RIGHT_PAREN
    ensures Yields(FinishCall(ts, c, pos, callee), callee + " " + a + " " + b, q + 1)
  {
    ArgumentsLast(ts, c, p + 1, [] + [a], b, q);
    assert [] + [a] + [b] == [a, b];
    ArgumentsNext(ts, c, pos, [], a, p, [a, b], q);
    assert !Check(ts, pos, [RIGHT_PAREN]);
    assert Join([a, b], " ") == a + " " + b by {
      assert [a, b][1..] == [b];
    }
    assert CallText(callee, [a, b]) == callee + " " + a + " " + b;
  }

  /** `x[i][j]` is written `item j item i x`: indexes apply from left to right. */
  lemma IndexChain(ts: seq<Token>, c: Constants, pos: nat, callee: string, i: string, p: nat, j: string, q: nat)
    requires Cursor(ts, pos + 1) && ts[pos].kind == LEFT_BRACKET
    requires Yields(Expression(ts, c, pos + 1), i, p) && ts[p].kind == RIGHT_BRACKET && ts[p + 1].kind == LEFT_BRACKET
    requires Cursor(ts, p + 2) && Yields(Expression(ts, c, p + 2), j, q) && ts[q].kind == RIGHT_BRACKET
    requires ts[q + 1].kind !in [LEFT_PAREN, LEFT_BRACKET]
    ensures Yields(CallFrom(ts, c, pos, callee), IndexText(j, IndexText(i, callee)), q + 1)
  {
    var first := IndexText(i, callee);
    var second := IndexText(j, first);
    assert !Match(ts, pos, [LEFT_PAREN]).value && Match(ts, pos, [LEFT_BRACKET]).pos == pos + 1;
    assert !Match(ts, p + 1, [LEFT_PAREN]).value && Match(ts, p + 1, [LEFT_BRACKET]).pos == p + 2;
    assert Yields(FinishIndex(ts, c, pos + 1, callee), first, p + 1);
    assert Yields(FinishIndex(ts, c, p + 2, first), second, q + 1);
    assert Yields(CallFrom(ts, c, q + 1, second), second, q + 1);
    assert Yields(CallFrom(ts, c, p + 1, first), second, q + 1);
  }

  /**
   * A name is replaced by the text of its constant only when it is declared;
   * an undeclared name is written as it is, and a declared but undefined one
   * fails.
   */
  lemma ConstantsSubstituted(ts: seq<Token>, c: Constants, pos: nat)
    requires Cursor(ts, pos) && ts[pos].kind == IDENTIFIER
    ensures var name := ts[pos].lexeme;
      && (name !in c ==> Yields(Primary(ts, c, pos), name, pos + 1))
      && (name in c && c[name].Some? ==> Yields(Primary(ts, c, pos), V.ToText(c[name].value), pos + 1))
      && (name in c && c[name].None? ==> Primary(ts, c, pos) == Err(UndefinedLiteral(ts[pos])))
  {
  }

  /**
   * A NUMBER or STRING token is written as the text of its literal value; one
   * scanned without a value, as the words `number` and `string` are, fails on
   * that token.
   */
  lemma ValueTokenInlined(ts: seq<Token>, c: Constants, pos: nat)
    requires Cursor(ts, pos) && ts[pos].kind in [NUMBER, STRING]
    ensures ts[pos].literal.Some? ==> Yields(Primary(ts, c, pos), V.ToText(ts[pos].literal.value), pos + 1)
    ensures ts[pos].literal.None? ==> Primary(ts, c, pos) == Err(UndefinedLiteral(ts[pos]))
  {
  }

  /** A parenthesised expression keeps its parentheses. */
  lemma GroupingKept(ts: seq<Token>, c: Constants, pos: nat, e: string, p: nat)
    requires Cursor(ts, pos + 1) && ts[pos].kind == LEFT_PAREN
    requires Yields(Expression(ts, c, pos + 1), e, p) && ts[p].kind == RIGHT_PAREN
    ensures Yields(Primary(ts, c, pos), "(" + e + ")", p + 1)
  {
  }

  /** A literal token followed by a token that continues no expression is an expression: its value's text. */
  lemma ExpressionOfLiteral(ts: seq<Token>, c: Constants, pos: nat, v: V.Value)
    requires Cursor(ts, pos + 1) && LiteralToken(ts[pos], v) && Ends(ts[pos + 1].kind)
    ensures Yields(Expression(ts, c, pos), V.ToText(v), pos + 1)
  {
    assert Yields(Primary(ts, c, pos), V.ToText(v), pos + 1);
    ExpressionOfPrimary(ts, c, pos, V.ToText(v), pos + 1);
  }

  /** A flat list ends with its `]`, one token after its last literal. */
  lemma {:induction false} FlatEnd(ts: seq<Token>, pos: nat, vs: seq<V.Value>)
    requires FlatList(ts, pos, vs)
    ensures pos + 2 * |vs| - 1 < |ts| && ts[pos + 2 * |vs| - 1].kind == RIGHT_BRACKET
    decreases |vs|
  {
    if |vs| > 1 {
      FlatEnd(ts, pos + 2, vs[1..]);
    }
  }

  /**
   * The tokens from `pos` are expressions with the texts `es`, of any length:
   * expression `k` ends at `ends[k]`, where a comma follows it, except after
   * the last, which is followed by something else.
   */
  predicate Elements(ts: seq<Token>, c: Constants, pos: nat, es: seq<string>, ends: seq<nat>)
    decreases |es|
  {
    && |es| > 0 && |ends| == |es| && Cursor(ts, pos) && Yields(Expression(ts, c, pos), es[0], ends[0])
    && if |es| == 1 then ts[ends[0]].kind != COMMA
       else ts[ends[0]].kind == COMMA && Elements(ts, c, ends[0] + 1, es[1..], ends[1..])
  }

  /** The expression loop reads such expressions in order, up to the token after the last. */
  lemma {:induction false} ExpressionsInOrder(ts: seq<Token>, c: Constants, pos: nat, acc: seq<string>, es: seq<string>, ends: seq<nat>)
    requires Elements(ts, c, pos, es, ends)
    ensures Yields(ExpressionsFrom(ts, c, pos, acc), acc + es, ends[|es| - 1])
    decreases |es|
  {
    if |es| == 1 {
      assert acc + es == acc + [es[0]];
      ArgumentsLast(ts, c, pos, acc, es[0], ends[0]);
    } else {
      ExpressionsInOrder(ts, c, ends[0] + 1, acc + [es[0]], es[1..], ends[1..]);
      assert acc + [es[0]] + es[1..] == acc + es;
      assert ends[1..][|es| - 2] == ends[|es| - 1];
      ArgumentsNext(ts, c, pos, acc, es[0], ends[0], acc + es, ends[|es| - 1]);
    }
  }

  /** A call whose arguments are such expressions, closed by `)`, is the callee followed by them in order. */
  lemma ArgumentsInOrder(ts: seq<Token>, c: Constants, pos: nat, callee: string, es: seq<string>, ends: seq<nat>)
    requires Elements(ts, c, pos, es, ends) && ts[pos].kind != RIGHT_PAREN
    requires ends[|es| - 1] < |ts| && ts[ends[|es| - 1]].kind == RIGHT_PAREN
    ensures Yields(FinishCall(ts, c, pos, callee), CallText(callee, es), ends[|es| - 1] + 1)
  {
    ExpressionsInOrder(ts, c, pos, [], es, ends);
    assert [] + es == es;
    assert !Check(ts, pos, [RIGHT_PAREN]);
  }

  /** A list display whose elements are such expressions, closed by `]`, lists them in order. */
  lemma DisplayInOrder(ts: seq<Token>, c: Constants, pos: nat, es: seq<string>, ends: seq<nat>)
    requires Elements(ts, c, pos, es, ends) && ts[pos].kind != RIGHT_BRACKET
    requires ends[|es| - 1] < |ts| && ts[ends[|es| - 1]].kind == RIGHT_BRACKET
    ensures Yields(ListDisplay(ts, c, pos), ListDisplayText(es), ends[|es| - 1] + 1)
  {
    ExpressionsInOrder(ts, c, pos, [], es, ends);
    assert [] + es == es;
    DisplayOfElements(ts, c, pos, es, ends[|es| - 1]);
  }

  /** The positions just after each literal of a flat list starting at `pos`. */
  function FlatEnds(pos: nat, n: nat): (r: seq<nat>)
    ensures |r| == n && forall k :: 0 <= k < n ==> r[k] == pos + 2 * k + 1
    decreases n
  {
    if n == 0 then [] else [pos + 1] + FlatEnds(pos + 2, n - 1)
  }

  /** The literals of a flat list, as expressions, are such elements: the texts of their values. */
  lemma {:induction false} FlatElements(ts: seq<Token>, c: Constants, pos: nat, vs: seq<V.Value>)
    requires Cursor(ts, pos) && FlatList(ts, pos, vs)
    ensures Elements(ts, c, pos, V.ElementTexts(vs), FlatEnds(pos, |vs|))
    decreases |vs|
  {
    var es := V.ElementTexts(vs);
    var ends := FlatEnds(pos, |vs|);
    ExpressionOfLiteral(ts, c, pos, vs[0]);
    if |vs| > 1 {
      FlatElements(ts, c, pos + 2, vs[1..]);
      assert es[1..] == V.ElementTexts(vs[1..]);
      assert ends[1..] == FlatEnds(pos + 2, |vs| - 1);
    }
  }

  /** A list display whose elements are read by the expression loop up to a `]`. */
  lemma DisplayOfElements(ts: seq<Token>, c: Constants, pos: nat, es: seq<string>, q: nat)
    requires Cursor(ts, pos) && ts[pos].kind != RIGHT_BRACKET
    requires Yields(ExpressionsFrom(ts, c, pos, []), es, q) && ts[q].kind == RIGHT_BRACKET
    ensures Yields(ListDisplay(ts, c, pos), ListDisplayText(es), q + 1)
  {
    assert !Check(ts, pos, [RIGHT_BRACKET]);
  }

  /** A list display of the element texts of a LIST value is that value's text. */
  lemma ListText(vs: seq<V.Value>)
    ensures ListDisplayText(V.ElementTexts(vs)) == V.ToText(V.List(vs))
  {
  }

  /** The elements of an inline list of literals are the texts of their values, in order, up to the `]`. */
  lemma ListElementsInOrder(ts: seq<Token>, c: Constants, pos: nat, vs: seq<V.Value>)
    requires Cursor(ts, pos) && FlatList(ts, pos, vs)
    ensures Yields(ExpressionsFrom(ts, c, pos, []), V.ElementTexts(vs), pos + 2 * |vs| - 1)
  {
    var es := V.ElementTexts(vs);
    FlatElements(ts, c, pos, vs);
    ExpressionsInOrder(ts, c, pos, [], es, FlatEnds(pos, |vs|));
    assert [] + es == es;
  }

  /**
   * An inline list of literals is written exactly as a constant holding the
   * same list is inlined: as the LIST value's text.
   */
  lemma {:induction false} InlineListAsConstant(ts: seq<Token>, c: Constants, pos: nat, vs: seq<V.Value>)
    requires Cursor(ts, pos) && FlatList(ts, pos, vs)
    ensures Yields(ListDisplay(ts, c, pos), V.ToText(V.List(vs)), pos + 2 * |vs|)
  {
    var es := V.ElementTexts(vs);
    FlatEnd(ts, pos, vs);
    ListElementsInOrder(ts, c, pos, vs);
    DisplayOfElements(ts, c, pos, es, pos + 2 * |vs| - 1);
    ListText(vs);
  }

  // ----- Rejected expressions -----

  /** The kinds an expression can start with. */
  const Starts: seq<TokenType> := [BANG, MINUS, FALSE, TRUE, NUMBER, STRING, IDENTIFIER, LEFT_PAREN, LEFT_BRACKET]

  /** At a token no expression starts with, `primary`, `call` and `unary` fail with "Expect expression." at it. */
  lemma UnaryRejects(ts: seq<Token>, c: Constants, pos: nat)
    requires Cursor(ts, pos) && ts[pos].kind !in Starts
    ensures Unary(ts, c, pos) == Err(Syntax(ExpectExpression, ts[pos]))
  {
    assert Primary(ts, c, pos) == Err(Syntax(ExpectExpression, ts[pos]));
  }

  /** And so does every binary level, whose first operand is reached through the levels below it. */
  lemma {:induction false} BinaryRejects(ts: seq<Token>, c: Constants, pos: nat, level: nat)
    requires Cursor(ts, pos) && ts[pos].kind !in Starts && 3 <= level <= 8
    ensures Binary(ts, c, pos, level) == Err(Syntax(ExpectExpression, ts[pos]))
    decreases level
  {
    if level == 3 {
      UnaryRejects(ts, c, pos);
    } else {
      BinaryRejects(ts, c, pos, level - 1);
    }
  }

  /** So an expression cannot start with any other token. */
  lemma NotAnExpression(ts: seq<Token>, c: Constants, pos: nat)
    requires Cursor(ts, pos) && ts[pos].kind !in Starts
    ensures Expression(ts, c, pos) == Err(Syntax(ExpectExpression, ts[pos]))
  {
    BinaryRejects(ts, c, pos, 8);
  }

  /** A block whose first token is `{` fails: `{` starts no statement, so it is read as an expression. */
  lemma BraceBlockFails(ts: seq<Token>, c: Constants, pos: nat)
    requires Cursor(ts, pos) && ts[pos].kind == LEFT_BRACE
    ensures Block(ts, c, pos) == Err(Syntax(ExpectExpression, ts[pos]))
  {
    NotAnExpression(ts, c, pos);
    assert Statement(ts, c, pos) == ExpressionStatement(ts, c, pos);
  }

  /**
   * `if (condition) { ... }` fails at the `{`: the then-block begins right
   * after the `)`.
   */
  lemma IfBraceFails(ts: seq<Token>, c: Constants, pos: nat, e: string, p: nat)
    requires Cursor(ts, pos + 1) && ts[pos].kind == LEFT_PAREN
    requires Yields(Expression(ts, c, pos + 1), e, p) && ts[p].kind == RIGHT_PAREN && ts[p + 1].kind == LEFT_BRACE
    ensures If(ts, c, pos) == Err(Syntax(ExpectExpression, ts[p + 1]))
  {
    BraceBlockFails(ts, c, p + 1);
  }

  /** And so does `while (condition) { ... }`. */
  lemma WhileBraceFails(ts: seq<Token>, c: Constants, pos: nat, e: string, p: nat)
    requires Cursor(ts, pos + 1) && ts[pos].kind == LEFT_PAREN
    requires Yields(Expression(ts, c, pos + 1), e, p) && ts[p].kind == RIGHT_PAREN && ts[p + 1].kind == LEFT_BRACE
    ensures While(ts, c, pos) == Err(Syntax(ExpectExpression, ts[p + 1]))
  {
    BraceBlockFails(ts, c, p + 1);
  }

  /**
   * No assignment is accepted: an expression is an `or` expression not
   * followed by `=`, and where `=` follows, the whole fails, with the right
   * side's error if it has one and otherwise with "Invalid assignment target."
   * at the `=`.
   */
  lemma {:induction false} AssignmentRejected(ts: seq<Token>, c: Constants, pos: nat)
    requires Cursor(ts, pos)
    ensures var r := Expression(ts, c, pos);
      r.Ok? ==> Binary(ts, c, pos, 8) == r && ts[r.value.pos].kind != EQUAL
    ensures var b := Binary(ts, c, pos, 8);
      b.Ok? && ts[b.value.pos].kind == EQUAL ==>
        var right := Assignment(ts, c, b.value.pos + 1);
        Expression(ts, c, pos) == if right.Ok? then Err(Syntax(InvalidAssignmentTarget, ts[b.value.pos])) else Err(right.error)
  {
  }

  // ----- Statements -----

  /** A `return` directly followed by a NEWLINE is `stop`, and the NEWLINE is left for the next statement. */
  lemma BareReturn(ts: seq<Token>, c: Constants, pos: nat)
    requires Cursor(ts, pos) && ts[pos].kind == NEWLINE
    ensures Yields(Return(ts, c, pos), "stop\n", pos)
  {
  }

  /** A returned value must be followed by a NEWLINE; `return value }` on one line fails at the `}`. */
  lemma ReturnNeedsNewline(ts: seq<Token>, c: Constants, pos: nat, e: string, q: nat)
    requires Cursor(ts, pos) && ts[pos].kind != NEWLINE
    requires Yields(Expression(ts, c, pos), e, q) && ts[q].kind != NEWLINE
    ensures Return(ts, c, pos) == Err(Syntax(ExpectedNewlineAfterReturn, ts[q]))
  {
  }

  /** A returned value is reported. */
  lemma ReturnReports(ts: seq<Token>, c: Constants, pos: nat, e: string, q: nat)
    requires Cursor(ts, pos) && ts[pos].kind != NEWLINE
    requires Yields(Expression(ts, c, pos), e, q) && ts[q].kind == NEWLINE
    ensures Yields(Return(ts, c, pos), "report " + e + "\n", q + 1)
  {
  }

  /** A text that is empty or ends a line. */
  predicate Lines(s: string) {
    s == [] || s[|s| - 1] == '\n'
  }

  lemma LinesConcat(a: string, b: string)
    requires Lines(a) && Lines(b)
    ensures Lines(a + b)
  {
    if b != [] {
      assert (a + b)[|a + b| - 1] == b[|b| - 1];
    }
  }

  /** A text that ends a line. */
  predicate EndsLine(s: string) {
    |s| > 0 && s[|s| - 1] == '\n'
  }

  /** Every statement template ends its last line. */
  lemma TemplatesEndLine(name: string, value: string, body: string, other: string)
    ensures EndsLine(ForeachText(name, value, body)) && EndsLine(IfText(value, body, other))
    ensures EndsLine(WhileText(value, body)) && EndsLine(ReportText(value)) && EndsLine(LetText(name, value))
    ensures EndsLine(value + "\n")
  {
  }

  lemma {:induction false} ForeachEndsLine(ts: seq<Token>, c: Constants, pos: nat)
    requires Cursor(ts, pos) && Foreach(ts, c, pos).Ok?
    ensures EndsLine(Foreach(ts, c, pos).value.value)
  {
    var name := ts[pos].lexeme;
    var list := Expression(ts, c, pos + 2);
    assert list.Ok?;
    var b := ForeachBody(ts, c, list.value.pos, name, list.value.value);
    assert b.Ok? && Foreach(ts, c, pos) == b;
    var body := Block(ts, c, list.value.pos + 1);
    assert body.Ok? && b.value.value == ForeachText(name, list.value.value, body.value.value);
    TemplatesEndLine(name, list.value.value, body.value.value, "");
  }

  lemma {:induction false} IfBranchesEndsLine(ts: seq<Token>, c: Constants, pos: nat, condition: string)
    requires Cursor(ts, pos) && IfBranches(ts, c, pos, condition).Ok?
    ensures EndsLine(IfBranches(ts, c, pos, condition).value.value)
  {
    var th := Block(ts, c, pos);
    assert th.Ok?;
    var hasElse := Match(ts, th.value.pos, [ELSE]);
    var el := if hasElse.value then Block(ts, c, hasElse.pos) else Ok(Parsed("", hasElse.pos));
    assert el.Ok? && IfBranches(ts, c, pos, condition).value.value == IfText(condition, th.value.value, el.value.value);
    TemplatesEndLine("", condition, th.value.value, el.value.value);
  }

  lemma {:induction false} IfEndsLine(ts: seq<Token>, c: Constants, pos: nat)
    requires Cursor(ts, pos) && If(ts, c, pos).Ok?
    ensures EndsLine(If(ts, c, pos).value.value)
  {
    var open := Consume(ts, pos, LEFT_PAREN, ExpectedParenAfterIf);
    assert open.Ok? && open.value.pos == pos + 1;
    var condition := Expression(ts, c, pos + 1);
    assert condition.Ok?;
    var close := Consume(ts, condition.value.pos, RIGHT_PAREN, ExpectedParenAfterIfCondition);
    assert close.Ok? && close.value.pos == condition.value.pos + 1;
    assert If(ts, c, pos) == IfBranches(ts, c, close.value.pos, condition.value.value);
    IfBranchesEndsLine(ts, c, close.value.pos, condition.value.value);
  }

  lemma {:induction false} ReturnEndsLine(ts: seq<Token>, c: Constants, pos: nat)
    requires Cursor(ts, pos) && Return(ts, c, pos).Ok?
    ensures EndsLine(Return(ts, c, pos).value.value)
  {
    if !Check(ts, pos, [NEWLINE]) {
      var e := Expression(ts, c, pos);
      assert e.Ok? && Return(ts, c, pos).value.value == ReportText(e.value.value);
      TemplatesEndLine("", e.value.value, "", "");
    }
  }

  lemma {:induction false} WhileEndsLine(ts: seq<Token>, c: Constants, pos: nat)
    requires Cursor(ts, pos) && While(ts, c, pos).Ok?
    ensures EndsLine(While(ts, c, pos).value.value)
  {
    var e := Expression(ts, c, pos + 1);
    assert e.Ok?;
    var body := Block(ts, c, e.value.pos + 1);
    assert body.Ok? && While(ts, c, pos).value.value == WhileText(e.value.value, body.value.value);
    TemplatesEndLine("", e.value.value, body.value.value, "");
  }

  lemma {:induction false} DeclarationEndsLine(ts: seq<Token>, c: Constants, pos: nat)
    requires Cursor(ts, pos) && Declaration(ts, c, pos).Ok?
    ensures EndsLine(Declaration(ts, c, pos).value.value)
  {
    var e := Expression(ts, c, pos + 2);
    assert e.Ok? && Declaration(ts, c, pos).value.value == LetText(ts[pos].lexeme, e.value.value);
    TemplatesEndLine(ts[pos].lexeme, e.value.value, "", "");
  }

  lemma {:induction false} ExpressionStatementEndsLine(ts: seq<Token>, c: Constants, pos: nat)
    requires Cursor(ts, pos) && ExpressionStatement(ts, c, pos).Ok?
    ensures EndsLine(ExpressionStatement(ts, c, pos).value.value)
  {
    var e := Expression(ts, c, pos);
    assert e.Ok? && ExpressionStatement(ts, c, pos).value.value == e.value.value + "\n";
    TemplatesEndLine("", e.value.value, "", "");
  }

  /** The statement a keyword starts. */
  lemma {:induction false} KeywordStatement(ts: seq<Token>, c: Constants, pos: nat)
    requires Cursor(ts, pos)
    ensures ts[pos].kind == FOREACH ==> Statement(ts, c, pos) == Foreach(ts, c, pos + 1)
    ensures ts[pos].kind == IF ==> Statement(ts, c, pos) == If(ts, c, pos + 1)
    ensures ts[pos].kind == RETURN ==> Statement(ts, c, pos) == Return(ts, c, pos + 1)
    ensures ts[pos].kind == WHILE ==> Statement(ts, c, pos) == While(ts, c, pos + 1)
    ensures ts[pos].kind == LET ==> Statement(ts, c, pos) == Declaration(ts, c, pos + 1)
  {
  }

  /** Every statement's text ends with a newline. */
  lemma {:induction false} StatementEndsLine(ts: seq<Token>, c: Constants, pos: nat)
    requires Cursor(ts, pos) && Statement(ts, c, pos).Ok?
    ensures EndsLine(Statement(ts, c, pos).value.value)
  {
    KeywordStatement(ts, c, pos);
    var k := ts[pos].kind;
    if k == FOREACH {
      ForeachEndsLine(ts, c, pos + 1);
    } else if k == IF {
      IfEndsLine(ts, c, pos + 1);
    } else if k == RETURN {
      ReturnEndsLine(ts, c, pos + 1);
    } else if k == WHILE {
      WhileEndsLine(ts, c, pos + 1);
    } else if k == LET {
      DeclarationEndsLine(ts, c, pos + 1);
    } else if k != NEWLINE {
      assert Statement(ts, c, pos) == ExpressionStatement(ts, c, pos);
      ExpressionStatementEndsLine(ts, c, pos);
    }
  }


  /** So a block's text is a sequence of whole lines. */
  lemma {:induction false} BlockLines(ts: seq<Token>, c: Constants, pos: nat, acc: string)
    requires Cursor(ts, pos) && Lines(acc) && BlockFrom(ts, c, pos, acc).Ok?
    ensures Lines(BlockFrom(ts, c, pos, acc).value.value)
    decreases |ts| - pos
  {
    if !Check(ts, pos, [RIGHT_BRACE]) && !IsAtEnd(ts, pos) {
      var s := Statement(ts, c, pos);
      assert s.Ok?;
      StatementEndsLine(ts, c, pos);
      assert Lines(s.value.value);
      LinesConcat(acc, s.value.value);
      BlockLines(ts, c, s.value.pos, acc + s.value.value);
    }
  }

  /** A function's text ends with `end` and a newline. */
  lemma {:induction false} FunctionLines(ts: seq<Token>, c: Constants, pos: nat)
    requires Cursor(ts, pos) && FunctionDeclaration(ts, c, pos).Ok?
    ensures Lines(FunctionDeclaration(ts, c, pos).value.value)
  {
    var signature := Signature(ts, pos);
    assert signature.Ok?;
    var body := Block(ts, c, signature.value.pos);
    assert body.Ok?;
    FunctionHead(signature.value.value.0, signature.value.value.1, body.value.value);
  }

  /** Every top-level declaration emits whole lines: a function ends with `end`, a constant emits nothing. */
  lemma {:induction false} GlobalLines(ts: seq<Token>, c: Constants, pos: nat)
    requires Cursor(ts, pos) && Global(ts, c, pos).Ok?
    ensures Lines(Global(ts, c, pos).value.text)
  {
    var k := ts[pos].kind;
    if k == FUNCTION {
      GlobalFunction(ts, c, pos);
      FunctionLines(ts, c, pos + 1);
    } else if k == CONST {
      GlobalConst(ts, c, pos);
      ConstSets(ts, c, pos + 1);
    } else if k == NEWLINE {
      GlobalNewline(ts, c, pos);
    } else {
      GlobalRejects(ts, c, pos);
    }
  }


  /** So the whole translation is a sequence of whole lines. */
  lemma {:induction false} CompileLines(ts: seq<Token>, c: Constants, pos: nat, acc: string)
    requires Cursor(ts, pos) && Lines(acc) && CompileFrom(ts, c, pos, acc).Ok?
    ensures Lines(CompileFrom(ts, c, pos, acc).value)
    decreases |ts| - pos
  {
    if !IsAtEnd(ts, pos) {
      var g := Global(ts, c, pos);
      assert g.Ok?;
      GlobalLines(ts, c, pos);
      LinesConcat(acc, g.value.text);
      CompileLines(ts, g.value.constants, g.value.pos, acc + g.value.text);
    }
  }

  /** The translation of any source that is accepted is a sequence of whole lines. */
  lemma TranspileLines(source: string)
    requires Transpile(source).Ok?
    ensures Lines(Transpile(source).value)
  {
    var ts := SM.Scan(source);
    assert ts.Ok?;
    CompileLines(ts.value, map[], 0, "");
  }

  // ----- Output templates -----

  /** A function becomes a reporter exactly when its body contains `report `, and it ends with `end`. */
  lemma FunctionHead(name: string, parameters: seq<string>, body: string)
    ensures var r := FunctionText(name, parameters, body);
      && (|r| >= 10 && r[..10] == "to-report ") == Includes(body, "report ")
      && (!Includes(body, "report ") ==> r[..3] == "to ")
      && |r| >= 4 && r[|r| - 4..] == "end\n"
  {
    var r := FunctionText(name, parameters, body);
    var tail := " " + name + " [" + Join(parameters, " ") + "]" + body + "end\n";
    if Includes(body, "report ") {
      assert r == "to-report" + tail;
    } else {
      assert r == "to" + tail && r[2] == ' ';
    }
  }

  /** An `if` becomes `ifelse` exactly when the else-branch has text. */
  lemma IfHead(condition: string, thenBranch: string, elseBranch: string)
    ensures var r := IfText(condition, thenBranch, elseBranch);
      && (|r| >= 7 && r[..7] == "ifelse ") == (|elseBranch| > 0)
      && (elseBranch == [] ==> r[..3] == "if ")
  {
    var r := IfText(condition, thenBranch, elseBranch);
    if elseBranch == [] {
      assert r[2] == ' ';
    }
  }
}

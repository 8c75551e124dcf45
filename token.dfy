/**
 * The token kinds and the token record of token.ts. The kinds are a closed
 * enumeration whose names double as the scanner's reserved-word table.
 */
module Tokens {
  import opened Wrappers
  import opened Strings
  import V = Values

  /** `TokenType`, in declaration order. */
  datatype TokenType =
    // Kinds of a single character, and the line break.
    | LEFT_PAREN | RIGHT_PAREN | LEFT_BRACE | RIGHT_BRACE | RIGHT_BRACKET | LEFT_BRACKET
    | COMMA | MINUS | PLUS | SLASH | STAR
    | NEWLINE
    // Operators read alone or with a following `=`.
    | BANG | BANG_EQUAL
    | EQUAL | EQUAL_EQUAL
    | GREATER | GREATER_EQUAL
    | LESS | LESS_EQUAL
    // Names and literal values.
    | IDENTIFIER | STRING | NUMBER
    // Reserved words.
    | AND | CONST | ELSE | FALSE | FUNCTION | FOREACH
    | IF | IN | LET | OR | RETURN | TRUE | WHILE
    | EOF | ILLEGAL

  /** The kind with ordinal `i` (the enumeration's numeric values, 0 to 37). */
  function KindAt(i: int): TokenType
    requires 0 <= i < 38
  {
    if i == 0 then LEFT_PAREN
    else if i == 1 then RIGHT_PAREN
    else if i == 2 then LEFT_BRACE
    else if i == 3 then RIGHT_BRACE
    else if i == 4 then RIGHT_BRACKET
    else if i == 5 then LEFT_BRACKET
    else if i == 6 then COMMA
    else if i == 7 then MINUS
    else if i == 8 then PLUS
    else if i == 9 then SLASH
    else if i == 10 then STAR
    else if i == 11 then NEWLINE
    else if i == 12 then BANG
    else if i == 13 then BANG_EQUAL
    else if i == 14 then EQUAL
    else if i == 15 then EQUAL_EQUAL
    else if i == 16 then GREATER
    else if i == 17 then GREATER_EQUAL
    else if i == 18 then LESS
    else if i == 19 then LESS_EQUAL
    else if i == 20 then IDENTIFIER
    else if i == 21 then STRING
    else if i == 22 then NUMBER
    else if i == 23 then AND
    else if i == 24 then CONST
    else if i == 25 then ELSE
    else if i == 26 then FALSE
    else if i == 27 then FUNCTION
    else if i == 28 then FOREACH
    else if i == 29 then IF
    else if i == 30 then IN
    else if i == 31 then LET
    else if i == 32 then OR
    else if i == 33 then RETURN
    else if i == 34 then TRUE
    else if i == 35 then WHILE
    else if i == 36 then EOF
    else ILLEGAL
  }

  /** The kinds with ordinals `from` to 37, in order. */
  function KindsFrom(from: nat): (r: seq<TokenType>)
    requires from <= 38
    ensures |r| == 38 - from
    ensures forall i :: 0 <= i < |r| ==> r[i] == KindAt(from + i)
    decreases 38 - from
  {
    if from == 38 then [] else [KindAt(from)] + KindsFrom(from + 1)
  }

  /** Every kind, in declaration order. */
  const Kinds: seq<TokenType> := KindsFrom(0)

  /** The name of a kind: its key in the `TokenType` object. */
  function Name(k: TokenType): string {
    match k
    case LEFT_PAREN => "LEFT_PAREN"
    case RIGHT_PAREN => "RIGHT_PAREN"
    case LEFT_BRACE => "LEFT_BRACE"
    case RIGHT_BRACE => "RIGHT_BRACE"
    case RIGHT_BRACKET => "RIGHT_BRACKET"
    case LEFT_BRACKET => "LEFT_BRACKET"
    case COMMA => "COMMA"
    case MINUS => "MINUS"
    case PLUS => "PLUS"
    case SLASH => "SLASH"
    case STAR => "STAR"
    case NEWLINE => "NEWLINE"
    case BANG => "BANG"
    case BANG_EQUAL => "BANG_EQUAL"
    case EQUAL => "EQUAL"
    case EQUAL_EQUAL => "EQUAL_EQUAL"
    case GREATER => "GREATER"
    case GREATER_EQUAL => "GREATER_EQUAL"
    case LESS => "LESS"
    case LESS_EQUAL => "LESS_EQUAL"
    case IDENTIFIER => "IDENTIFIER"
    case STRING => "STRING"
    case NUMBER => "NUMBER"
    case AND => "AND"
    case CONST => "CONST"
    case ELSE => "ELSE"
    case FALSE => "FALSE"
    case FUNCTION => "FUNCTION"
    case FOREACH => "FOREACH"
    case IF => "IF"
    case IN => "IN"
    case LET => "LET"
    case OR => "OR"
    case RETURN => "RETURN"
    case TRUE => "TRUE"
    case WHILE => "WHILE"
    case EOF => "EOF"
    case ILLEGAL => "ILLEGAL"
  }

  // The kinds fall into groups, so that facts about all 38 names can be proved a group at a time.

  /** The six brackets. */
  predicate BracketKind(k: TokenType) {
    k.LEFT_PAREN? || k.RIGHT_PAREN? || k.LEFT_BRACE? || k.RIGHT_BRACE? || k.RIGHT_BRACKET? || k.LEFT_BRACKET?
  }

  /** The other single-character kinds. */
  predicate SymbolKind(k: TokenType) {
    k.COMMA? || k.MINUS? || k.PLUS? || k.SLASH? || k.STAR? || k.NEWLINE?
  }

  /** The one- or two-character operators. */
  predicate OperatorKind(k: TokenType) {
    k.BANG? || k.BANG_EQUAL? || k.EQUAL? || k.EQUAL_EQUAL? || k.GREATER? || k.GREATER_EQUAL? || k.LESS? || k.LESS_EQUAL?
  }

  /** The literal kinds. */
  predicate LiteralKind(k: TokenType) {
    k.IDENTIFIER? || k.STRING? || k.NUMBER?
  }

  /** The keywords AND to FOREACH. */
  predicate EarlyKeywordKind(k: TokenType) {
    k.AND? || k.CONST? || k.ELSE? || k.FALSE? || k.FUNCTION? || k.FOREACH?
  }

  /** The keywords IF to WHILE. */
  predicate LateKeywordKind(k: TokenType) {
    k.IF? || k.IN? || k.LET? || k.OR? || k.RETURN? || k.TRUE? || k.WHILE?
  }

  /** The end and error markers. */
  predicate SentinelKind(k: TokenType) {
    k.EOF? || k.ILLEGAL?
  }

  // One lemma per name: each kind is the only one carrying its name. Proving
  // them one at a time keeps every proof a short case split over the kinds.

  lemma LeftParenNameUnique(b: TokenType)
    ensures Name(b) == Name(LEFT_PAREN) ==> b == LEFT_PAREN
  {
  }

  lemma RightParenNameUnique(b: TokenType)
    ensures Name(b) == Name(RIGHT_PAREN) ==> b == RIGHT_PAREN
  {
  }

  lemma LeftBraceNameUnique(b: TokenType)
    ensures Name(b) == Name(LEFT_BRACE) ==> b == LEFT_BRACE
  {
  }

  lemma RightBraceNameUnique(b: TokenType)
    ensures Name(b) == Name(RIGHT_BRACE) ==> b == RIGHT_BRACE
  {
  }

  lemma RightBracketNameUnique(b: TokenType)
    ensures Name(b) == Name(RIGHT_BRACKET) ==> b == RIGHT_BRACKET
  {
  }

  lemma LeftBracketNameUnique(b: TokenType)
    ensures Name(b) == Name(LEFT_BRACKET) ==> b == LEFT_BRACKET
  {
  }

  lemma CommaNameUnique(b: TokenType)
    ensures Name(b) == Name(COMMA) ==> b == COMMA
  {
  }

  lemma MinusNameUnique(b: TokenType)
    ensures Name(b) == Name(MINUS) ==> b == MINUS
  {
  }

  lemma PlusNameUnique(b: TokenType)
    ensures Name(b) == Name(PLUS) ==> b == PLUS
  {
  }

  lemma SlashNameUnique(b: TokenType)
    ensures Name(b) == Name(SLASH) ==> b == SLASH
  {
  }

  lemma StarNameUnique(b: TokenType)
    ensures Name(b) == Name(STAR) ==> b == STAR
  {
  }

  lemma NewlineNameUnique(b: TokenType)
    ensures Name(b) == Name(NEWLINE) ==> b == NEWLINE
  {
  }

  lemma BangNameUnique(b: TokenType)
    ensures Name(b) == Name(BANG) ==> b == BANG
  {
  }

  lemma BangEqualNameUnique(b: TokenType)
    ensures Name(b) == Name(BANG_EQUAL) ==> b == BANG_EQUAL
  {
  }

  lemma EqualNameUnique(b: TokenType)
    ensures Name(b) == Name(EQUAL) ==> b == EQUAL
  {
  }

  lemma EqualEqualNameUnique(b: TokenType)
    ensures Name(b) == Name(EQUAL_EQUAL) ==> b == EQUAL_EQUAL
  {
  }

  lemma GreaterNameUnique(b: TokenType)
    ensures Name(b) == Name(GREATER) ==> b == GREATER
  {
  }

  lemma GreaterEqualNameUnique(b: TokenType)
    ensures Name(b) == Name(GREATER_EQUAL) ==> b == GREATER_EQUAL
  {
  }

  lemma LessNameUnique(b: TokenType)
    ensures Name(b) == Name(LESS) ==> b == LESS
  {
  }

  lemma LessEqualNameUnique(b: TokenType)
    ensures Name(b) == Name(LESS_EQUAL) ==> b == LESS_EQUAL
  {
  }

  lemma IdentifierNameUnique(b: TokenType)
    ensures Name(b) == Name(IDENTIFIER) ==> b == IDENTIFIER
  {
  }

  lemma StringNameUnique(b: TokenType)
    ensures Name(b) == Name(STRING) ==> b == STRING
  {
  }

  lemma NumberNameUnique(b: TokenType)
    ensures Name(b) == Name(NUMBER) ==> b == NUMBER
  {
  }

  lemma AndNameUnique(b: TokenType)
    ensures Name(b) == Name(AND) ==> b == AND
  {
  }

  lemma ConstNameUnique(b: TokenType)
    ensures Name(b) == Name(CONST) ==> b == CONST
  {
  }

  lemma ElseNameUnique(b: TokenType)
    ensures Name(b) == Name(ELSE) ==> b == ELSE
  {
  }

  lemma FalseNameUnique(b: TokenType)
    ensures Name(b) == Name(FALSE) ==> b == FALSE
  {
  }

  lemma FunctionNameUnique(b: TokenType)
    ensures Name(b) == Name(FUNCTION) ==> b == FUNCTION
  {
  }

  lemma ForeachNameUnique(b: TokenType)
    ensures Name(b) == Name(FOREACH) ==> b == FOREACH
  {
  }

  lemma IfNameUnique(b: TokenType)
    ensures Name(b) == Name(IF) ==> b == IF
  {
  }

  lemma InNameUnique(b: TokenType)
    ensures Name(b) == Name(IN) ==> b == IN
  {
  }

  lemma LetNameUnique(b: TokenType)
    ensures Name(b) == Name(LET) ==> b == LET
  {
  }

  lemma OrNameUnique(b: TokenType)
    ensures Name(b) == Name(OR) ==> b == OR
  {
  }

  lemma ReturnNameUnique(b: TokenType)
    ensures Name(b) == Name(RETURN) ==> b == RETURN
  {
  }

  lemma TrueNameUnique(b: TokenType)
    ensures Name(b) == Name(TRUE) ==> b == TRUE
  {
  }

  lemma WhileNameUnique(b: TokenType)
    ensures Name(b) == Name(WHILE) ==> b == WHILE
  {
  }

  lemma EofNameUnique(b: TokenType)
    ensures Name(b) == Name(EOF) ==> b == EOF
  {
  }

  lemma IllegalNameUnique(b: TokenType)
    ensures Name(b) == Name(ILLEGAL) ==> b == ILLEGAL
  {
  }

  /** Distinct kinds have distinct names, so the name table is a proper dictionary. */
  lemma NameInjective(a: TokenType, b: TokenType)
    ensures Name(a) == Name(b) ==> a == b
  {
    match a
    case LEFT_PAREN => LeftParenNameUnique(b);
    case RIGHT_PAREN => RightParenNameUnique(b);
    case LEFT_BRACE => LeftBraceNameUnique(b);
    case RIGHT_BRACE => RightBraceNameUnique(b);
    case RIGHT_BRACKET => RightBracketNameUnique(b);
    case LEFT_BRACKET => LeftBracketNameUnique(b);
    case COMMA => CommaNameUnique(b);
    case MINUS => MinusNameUnique(b);
    case PLUS => PlusNameUnique(b);
    case SLASH => SlashNameUnique(b);
    case STAR => StarNameUnique(b);
    case NEWLINE => NewlineNameUnique(b);
    case BANG => BangNameUnique(b);
    case BANG_EQUAL => BangEqualNameUnique(b);
    case EQUAL => EqualNameUnique(b);
    case EQUAL_EQUAL => EqualEqualNameUnique(b);
    case GREATER => GreaterNameUnique(b);
    case GREATER_EQUAL => GreaterEqualNameUnique(b);
    case LESS => LessNameUnique(b);
    case LESS_EQUAL => LessEqualNameUnique(b);
    case IDENTIFIER => IdentifierNameUnique(b);
    case STRING => StringNameUnique(b);
    case NUMBER => NumberNameUnique(b);
    case AND => AndNameUnique(b);
    case CONST => ConstNameUnique(b);
    case ELSE => ElseNameUnique(b);
    case FALSE => FalseNameUnique(b);
    case FUNCTION => FunctionNameUnique(b);
    case FOREACH => ForeachNameUnique(b);
    case IF => IfNameUnique(b);
    case IN => InNameUnique(b);
    case LET => LetNameUnique(b);
    case OR => OrNameUnique(b);
    case RETURN => ReturnNameUnique(b);
    case TRUE => TrueNameUnique(b);
    case WHILE => WhileNameUnique(b);
    case EOF => EofNameUnique(b);
    case ILLEGAL => IllegalNameUnique(b);
  }

  /** The ordinal of a kind: its position in the declaration. */
  function Ordinal(k: TokenType): (i: nat)
    ensures i < 38 && KindAt(i) == k
  {
    match k
    case LEFT_PAREN => 0 case RIGHT_PAREN => 1 case LEFT_BRACE => 2 case RIGHT_BRACE => 3
    case RIGHT_BRACKET => 4 case LEFT_BRACKET => 5 case COMMA => 6 case MINUS => 7
    case PLUS => 8 case SLASH => 9 case STAR => 10 case NEWLINE => 11
    case BANG => 12 case BANG_EQUAL => 13 case EQUAL => 14 case EQUAL_EQUAL => 15
    case GREATER => 16 case GREATER_EQUAL => 17 case LESS => 18 case LESS_EQUAL => 19
    case IDENTIFIER => 20 case STRING => 21 case NUMBER => 22
    case AND => 23 case CONST => 24 case ELSE => 25 case FALSE => 26 case FUNCTION => 27
    case FOREACH => 28 case IF => 29 case IN => 30 case LET => 31 case OR => 32
    case RETURN => 33 case TRUE => 34 case WHILE => 35 case EOF => 36 case ILLEGAL => 37
  }

  /** Ordinals and `KindAt` are inverse: each kind sits at its ordinal. */
  lemma OrdinalIndexes(i: int)
    requires 0 <= i < 38
    ensures Ordinal(KindAt(i)) == i
  {
  }

  /** The enumeration is closed: 38 distinct kinds, ending with the sentinels EOF and ILLEGAL. */
  lemma KindsEnumeration()
    ensures |Kinds| == 38
    ensures forall k: TokenType :: k in Kinds
    ensures forall i, j :: 0 <= i < j < |Kinds| ==> Kinds[i] != Kinds[j]
    ensures Kinds[36] == EOF && Kinds[37] == ILLEGAL
  {
    forall k: TokenType ensures k in Kinds {
      assert Kinds[Ordinal(k)] == k;
    }
    forall i, j | 0 <= i < j < |Kinds| ensures Kinds[i] != Kinds[j] {
      OrdinalIndexes(i);
      OrdinalIndexes(j);
    }
  }

  /** The kind whose name is `text` among the kinds with ordinals `from` to 37, if any. */
  function LookupFrom(text: string, from: nat): (r: Option<TokenType>)
    requires from <= 38
    ensures r.Some? ==> Name(r.value) == text && from <= Ordinal(r.value)
    decreases 38 - from
  {
    if from == 38 then None
    else if Name(KindAt(from)) == text then OrdinalIndexes(from); Some(KindAt(from))
    else LookupFrom(text, from + 1)
  }

  /** `TokenType[text]`: the kind named `text`, or undefined. */
  function Lookup(text: string): Option<TokenType> {
    LookupFrom(text, 0)
  }

  lemma {:induction false} LookupFromName(k: TokenType, from: nat)
    requires from <= Ordinal(k)
    ensures LookupFrom(Name(k), from) == Some(k)
    decreases Ordinal(k) - from
  {
    if from < Ordinal(k) {
      NameInjective(KindAt(from), k);
      OrdinalIndexes(from);
      LookupFromName(k, from + 1);
    }
  }

  /** Looking up a kind's name finds that kind, for every kind and not only the keywords. */
  lemma LookupName(k: TokenType)
    ensures Lookup(Name(k)) == Some(k)
  {
    LookupFromName(k, 0);
  }

  /** A text is found exactly when it is the name of a kind, and then the kind found has that name. */
  lemma LookupIff(text: string)
    ensures Lookup(text).Some? <==> exists k :: Name(k) == text
    ensures Lookup(text).Some? ==> Name(Lookup(text).value) == text
  {
    if exists k :: Name(k) == text {
      var k :| Name(k) == text;
      LookupName(k);
    }
  }

  /** The reserved words of the language, in the order the keyword test lists them. */
  const Keywords: seq<TokenType> :=
    [AND, CONST, ELSE, FALSE, FUNCTION, FOREACH, IF, IN, LET, OR, RETURN, TRUE, WHILE]

  /** The keyword kinds are exactly the block of `Kinds` between NUMBER and EOF, in order. */
  lemma KeywordsBlock()
    ensures |Keywords| == 13
    ensures forall i :: 0 <= i < 13 ==> Keywords[i] == Kinds[23 + i]
  {
    KeywordsAt();
    KindsAt();
  }

  lemma KeywordsAt()
    ensures |Keywords| == 13
    ensures forall i :: 0 <= i < 13 ==> Keywords[i] == KindAt(23 + i)
  {
  }

  lemma KindsAt()
    ensures |Kinds| == 38
    ensures forall i :: 0 <= i < 38 ==> Kinds[i] == KindAt(i)
  {
  }

  /** Kind names consist of capital letters and `_`. */
  predicate Capitalised(s: string) {
    forall i :: 0 <= i < |s| ==> 'A' <= s[i] <= 'Z' || s[i] == '_'
  }

  lemma BracketNamesCapitalised(k: TokenType)
    requires BracketKind(k)
    ensures Capitalised(Name(k))
  {
  }

  lemma SymbolNamesCapitalised(k: TokenType)
    requires SymbolKind(k)
    ensures Capitalised(Name(k))
  {
  }

  lemma OperatorNamesCapitalised(k: TokenType)
    requires OperatorKind(k)
    ensures Capitalised(Name(k))
  {
  }

  lemma LiteralNamesCapitalised(k: TokenType)
    requires LiteralKind(k)
    ensures Capitalised(Name(k))
  {
  }

  lemma EarlyKeywordNamesCapitalised(k: TokenType)
    requires EarlyKeywordKind(k)
    ensures Capitalised(Name(k))
  {
  }

  lemma LateKeywordNamesCapitalised(k: TokenType)
    requires LateKeywordKind(k)
    ensures Capitalised(Name(k))
  {
  }

  lemma SentinelNamesCapitalised(k: TokenType)
    requires SentinelKind(k)
    ensures Capitalised(Name(k))
  {
  }

  lemma NameCapitalised(k: TokenType)
    ensures Capitalised(Name(k))
  {
    if BracketKind(k) {
      BracketNamesCapitalised(k);
    } else if SymbolKind(k) {
      SymbolNamesCapitalised(k);
    } else if OperatorKind(k) {
      OperatorNamesCapitalised(k);
    } else if LiteralKind(k) {
      LiteralNamesCapitalised(k);
    } else if EarlyKeywordKind(k) {
      EarlyKeywordNamesCapitalised(k);
    } else if LateKeywordKind(k) {
      LateKeywordNamesCapitalised(k);
    } else {
      SentinelNamesCapitalised(k);
    }
  }

  /**
   * A kind's name written in lower case (the spelling of a keyword in
   * source text) upper-cases back to the name, so the word scans as that
   * kind: the reserved-word table is the kind table.
   */
  lemma LowerNameLooksUp(k: TokenType)
    ensures Lookup(Upper(Lower(Name(k)))) == Some(k)
  {
    NameCapitalised(k);
    UpperLower(Name(k));
    LookupName(k);
  }

  /** The token carries its kind, its lexeme, its position and an optional literal value. */
  datatype Token = Token(kind: TokenType, lexeme: string, line: int, column: int, literal: Option<V.Value>)
}

/**
 * The literal values of value.ts: a tagged union of number, string, boolean
 * and list, and the text that inlines a value into the generated program.
 */
module Values {
  import opened Wrappers
  import opened Strings

  /** The tag of a value (`LogoValueType`). */
  datatype ValueType = NUMBER | STRING | BOOLEAN | LIST

  /**
   * A literal value; its constructor is its tag, so tag and payload cannot
   * disagree. A NUMBER keeps the decimal lexeme it was scanned from.
   */
  datatype Value =
    | Number(lexeme: string)
    | Str(text: string)
    | Boolean(b: bool)
    | List(items: seq<Value>)

  function TypeOf(v: Value): ValueType {
    match v
    case Number(_) => NUMBER
    case Str(_) => STRING
    case Boolean(_) => BOOLEAN
    case List(_) => LIST
  }

  /**
   * What the constructor of value.ts may be handed at run time: a number, a
   * string, a boolean, an array of values, or anything else.
   */
  datatype Payload =
    | JsNumber(lexeme: string)
    | JsString(text: string)
    | JsBoolean(b: bool)
    | JsArray(items: seq<Value>)
    | JsOther

  /** The payload a value was built from (its `value` field). */
  function PayloadOf(v: Value): Payload {
    match v
    case Number(l) => JsNumber(l)
    case Str(s) => JsString(s)
    case Boolean(b) => JsBoolean(b)
    case List(items) => JsArray(items)
  }

  /** The run-time type test of the payload, as the constructor performs it. */
  function PayloadType(p: Payload): Option<ValueType> {
    match p
    case JsNumber(_) => Some(NUMBER)
    case JsString(_) => Some(STRING)
    case JsBoolean(_) => Some(BOOLEAN)
    case JsArray(_) => Some(LIST)
    case JsOther => None
  }

  /**
   * The constructor: tags the payload by its run-time type and stores it
   * unchanged; any other payload is rejected.
   */
  function Make(p: Payload): (r: Result<Value, string>)
    ensures r.Err? <==> PayloadType(p) == None
    ensures r.Err? ==> r.error == "Invalid value type"
    ensures r.Ok? ==> Some(TypeOf(r.value)) == PayloadType(p) && PayloadOf(r.value) == p
  {
    match p
    case JsNumber(l) => Ok(Number(l))
    case JsString(s) => Ok(Str(s))
    case JsBoolean(b) => Ok(Boolean(b))
    case JsArray(items) => Ok(List(items))
    case JsOther => Err("Invalid value type")
  }

  /** Every value is what the constructor builds from its own payload. */
  lemma MakeRoundTrip(v: Value)
    ensures Make(PayloadOf(v)) == Ok(v)
  {
  }

  /** `s` with its leading newlines removed (`Number(..)` ignores leading white space). */
  function DropNewlines(s: string): (r: string)
    ensures |r| <= |s|
  {
    if |s| > 0 && s[0] == '\n' then DropNewlines(s[1..]) else s
  }

  function DropLeadingZeros(s: string): string {
    if |s| > 1 && s[0] == '0' then DropLeadingZeros(s[1..]) else s
  }

  function DropTrailingZeros(s: string): string {
    if |s| > 0 && s[|s| - 1] == '0' then DropTrailingZeros(s[..|s| - 1]) else s
  }

  function IndexOf(s: string, c: char): (i: int)
    ensures -1 <= i < |s|
    ensures 0 <= i ==> s[i] == c
  {
    if |s| == 0 then -1
    else if s[0] == c then 0
    else var j := IndexOf(s[1..], c); if j < 0 then -1 else j + 1
  }

  /**
   * A stand-in for the text JavaScript prints for the number a decimal lexeme
   * denotes: leading zeros of the integer part and trailing zeros of the
   * fraction dropped, and the point dropped with an empty fraction. Nothing is
   * proved about it; floating-point rounding and exponent forms are not modelled.
   */
  function NumberText(lexeme: string): string {
    var t := DropNewlines(lexeme);
    var dot := IndexOf(t, '.');
    var whole := DropLeadingZeros(if dot < 0 then t else t[..dot]);
    var fraction := DropTrailingZeros(if dot < 0 then "" else t[dot + 1..]);
    if fraction == "" then whole else whole + "." + fraction
  }

  /** The serialisations of the elements of a list, in order. */
  function ElementTexts(items: seq<Value>): (r: seq<string>)
    ensures |r| == |items|
    decreases items, 0
  {
    seq(|items|, i requires 0 <= i < |items| => ToText(items[i]))
  }

  /** `toString`: the text a value is inlined as. */
  function ToText(v: Value): string
    decreases v, 1
  {
    match v
    case Number(l) => NumberText(l)
    case Str(s) => "\"" + s + "\""
    case Boolean(b) => if b then "true" else "false"
    case List(items) => "( list " + Join(ElementTexts(items), " ") + " )"
  }

  /** A string is its raw text between double quotes: nothing inside is escaped. */
  lemma StringText(s: string)
    ensures var t := ToText(Str(s));
      |t| == |s| + 2 && t[0] == '"' && t[|t| - 1] == '"' && t[1..|t| - 1] == s
  {
  }

  /** A boolean is exactly `true` or `false`. */
  lemma BooleanText(b: bool)
    ensures ToText(Boolean(b)) == "true" <==> b
    ensures ToText(Boolean(b)) == "false" <==> !b
  {
  }

  /** The empty list keeps both separating spaces. */
  lemma EmptyListText()
    ensures ToText(List([])) == "( list  )"
  {
  }

  /** The text between `( list ` and ` )`: the element texts separated by single spaces. */
  function Inner(items: seq<Value>): string {
    Join(ElementTexts(items), " ")
  }

  lemma ElementTextsConcat(a: seq<Value>, b: seq<Value>)
    ensures ElementTexts(a + b) == ElementTexts(a) + ElementTexts(b)
  {
  }

  /**
   * Serialising a list keeps its elements in order: the list `a + b` is the
   * elements of `a`, one space, then the elements of `b`.
   */
  lemma ListTextConcat(a: seq<Value>, b: seq<Value>)
    requires a != [] && b != []
    ensures ToText(List(a + b)) == "( list " + Inner(a) + " " + Inner(b) + " )"
  {
    InnerConcat(a, b);
  }

  lemma InnerConcat(a: seq<Value>, b: seq<Value>)
    requires a != [] && b != []
    ensures Inner(a + b) == Inner(a) + " " + Inner(b)
  {
    ElementTextsConcat(a, b);
    JoinConcat(ElementTexts(a), ElementTexts(b), " ");
  }

  /** A one-element list's inner text is its element's text. */
  lemma InnerSingle(v: Value)
    ensures Inner([v]) == ToText(v)
  {
    assert ElementTexts([v]) == [ToText(v)];
  }

  /** A nested list is serialised in place, recursively. */
  lemma NestedListText(a: seq<Value>, inner: seq<Value>, b: seq<Value>)
    requires a != [] && b != []
    ensures ToText(List(a + [List(inner)] + b))
         == "( list " + Inner(a) + " ( list " + Inner(inner) + " ) " + Inner(b) + " )"
  {
    var mid := [List(inner)];
    InnerSingle(List(inner));
    InnerConcat(a, mid);
    InnerConcat(a + mid, b);
  }

  /**
   * Because nothing is escaped, serialisation is not injective: a list of
   * two strings and a list of one string with quotes inside print alike.
   */
  lemma SerialisationAmbiguous()
    ensures List([Str("a"), Str("b")]) != List([Str("a\" \"b")])
    ensures ToText(List([Str("a"), Str("b")])) == ToText(List([Str("a\" \"b")]))
  {
    assert Str("a") != Str("a\" \"b");
    var two, one := [Str("a"), Str("b")], [Str("a\" \"b")];
    assert ToText(two[0]) == "\"a\"" && ToText(two[1]) == "\"b\"";
    assert ElementTexts(two) == ["\"a\"", "\"b\""];
    assert ToText(one[0]) == "\"a\" \"b\"";
    assert ElementTexts(one) == ["\"a\" \"b\""];
  }

  /**
   * The list form written `( list v1 v2 … vn )`, each element preceded by one
   * space: the form a reader might expect, with a single space when empty.
   */
  function SpacedElements(items: seq<Value>): string
    decreases items
  {
    if items == [] then "" else " " + ToText(items[0]) + SpacedElements(items[1..])
  }

  lemma {:induction false} SpacedElementsJoin(items: seq<Value>)
    requires items != []
    ensures SpacedElements(items) == " " + Inner(items)
    decreases items
  {
    if |items| > 1 {
      SpacedElementsJoin(items[1..]);
      assert ElementTexts(items)[1..] == ElementTexts(items[1..]);
    }
  }

  /**
   * `toString` agrees with the spaced form `( list` + elements + ` )`
   * exactly for non-empty lists; the empty list prints with two spaces.
   */
  lemma ListTextSpacedForm(items: seq<Value>)
    ensures ToText(List(items)) == "( list" + SpacedElements(items) + " )" <==> items != []
  {
    if items != [] {
      SpacedElementsJoin(items);
    } else {
      assert ToText(List(items)) == "( list  )";
      assert "( list" + SpacedElements(items) + " )" == "( list )";
    }
  }
}

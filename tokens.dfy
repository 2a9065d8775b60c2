/** Tokens: the token categories, the literal values a token or a literal
    expression can carry, and the token value with its textual rendering. */
module Tokens {

  /** The token categories, in declaration order.  Several of them
      (`Undefined`, the brackets, `BangEqual`, `PlusPlus`, `MinusMinus`,
      `Question`, `Colon`, `Modulus`, `Break`) are never produced by the
      scanner. */
  datatype TokenType =
    | Undefined
    | LeftParenthesis | RightParenthesis | LeftBrace | RightBrace
    | LeftBracket | RightBracket
    | Bang | BangEqual | Equal | EqualEqual
    | Greater | GreaterEqual | Less | LessEqual
    | PlusPlus | MinusMinus | Question | Colon | Modulus
    | Identifier | String | Number
    | Comma | Dot | Minus | Plus | Semicolon | Star | Slash
    | And | Class | Else | False | Fun | For | If | Nil | Or | Print
    | Return | SuperClass | This | True | Var | While | Break
    | Eof

  /** A value held as an `object` in the source: the literal of a token and
      the value of a literal expression.  `Null` is the null reference; a
      number keeps its lexeme in place of the parsed double. */
  datatype Value =
    | Null
    | Boolean(b: bool)
    | Num(text: string)
    | Text(s: string)
    | TokenRef(t: Token)

  /** The token value: kind, exact lexeme, optional literal, 1-based line. */
  datatype Token = Token(kind: TokenType, lexeme: string, literal: Value, line: int)

  /** The name an enum member renders as. */
  function TypeName(k: TokenType): string {
    match k
    case Undefined => "Undefined"
    case LeftParenthesis => "LeftParenthesis"
    case RightParenthesis => "RightParenthesis"
    case LeftBrace => "LeftBrace"
    case RightBrace => "RightBrace"
    case LeftBracket => "LeftBracket"
    case RightBracket => "RightBracket"
    case Bang => "Bang"
    case BangEqual => "BangEqual"
    case Equal => "Equal"
    case EqualEqual => "EqualEqual"
    case Greater => "Greater"
    case GreaterEqual => "GreaterEqual"
    case Less => "Less"
    case LessEqual => "LessEqual"
    case PlusPlus => "PlusPlus"
    case MinusMinus => "MinusMinus"
    case Question => "Question"
    case Colon => "Colon"
    case Modulus => "Modulus"
    case Identifier => "Identifier"
    case String => "String"
    case Number => "Number"
    case Comma => "Comma"
    case Dot => "Dot"
    case Minus => "Minus"
    case Plus => "Plus"
    case Semicolon => "Semicolon"
    case Star => "Star"
    case Slash => "Slash"
    case And => "And"
    case Class => "Class"
    case Else => "Else"
    case False => "False"
    case Fun => "Fun"
    case For => "For"
    case If => "If"
    case Nil => "Nil"
    case Or => "Or"
    case Print => "Print"
    case Return => "Return"
    case SuperClass => "SuperClass"
    case This => "This"
    case True => "True"
    case Var => "Var"
    case While => "While"
    case Break => "Break"
    case Eof => "Eof"
  }

  /** The text a value contributes to an interpolated string.  Booleans
      render the way .NET renders them; the rendering of a double is not
      modelled, so a number renders as its lexeme. */
  function ValueText(v: Value): (s: string)
    decreases v
    ensures v.Null? ==> s == ""
    ensures v.Boolean? ==> s == if v.b then "True" else "False"
    ensures v.Num? ==> s == v.text
    ensures v.Text? ==> s == v.s
    ensures v.TokenRef? ==> s == ToString(v.t)
  {
    match v
    case Null => ""
    case Boolean(b) => if b then "True" else "False"
    case Num(text) => text
    case Text(s) => s
    case TokenRef(t) => ToString(t)
  }

  /** `Token.ToString`: "type lexeme literal" when a literal is present,
      "type lexeme" otherwise. */
  function ToString(t: Token): (s: string)
    decreases t
    ensures |TypeName(t.kind) + " " + t.lexeme| <= |s|
    ensures s[..|TypeName(t.kind) + " " + t.lexeme|] == TypeName(t.kind) + " " + t.lexeme
    ensures t.literal == Null <==> s == TypeName(t.kind) + " " + t.lexeme
    ensures t.literal != Null ==> s == TypeName(t.kind) + " " + t.lexeme + " " + ValueText(t.literal)
  {
    var head := TypeName(t.kind) + " " + t.lexeme;
    if t.literal != Null then
      head + " " + ValueText(t.literal)
    else
      head
  }
}

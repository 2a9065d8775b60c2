/** The expression tree.  Every child slot may hold the null reference (the
    parser's error productions return null), so children are `Option<Expr>`.
    The visitor's double dispatch becomes a `match`. */
module Expressions {
  import opened Results
  import opened Tokens

  datatype Expr =
    | Binary(left: Option<Expr>, operator: Token, right: Option<Expr>)
    | Grouping(expression: Option<Expr>)
    | Literal(value: Value)
    | Unary(operator: Token, right: Option<Expr>)
    | Variable(name: Token)
    | CallExpression(callee: Option<Expr>, paren: Token, arguments: seq<Option<Expr>>)
    | Assign(name: Token, rvalue: Option<Expr>)
    | Logical(left: Option<Expr>, operatorSign: Token, right: Option<Expr>)
    | ThisExpression(keyword: Token)
    | Conditional(expression: Option<Expr>, thenBranch: Option<Expr>, elseBranch: Option<Expr>)

  /** The ten variants, one per `Visit` overload. */
  datatype ExprTag =
    | BinaryTag | GroupingTag | LiteralTag | UnaryTag | VariableTag
    | CallTag | AssignTag | LogicalTag | ThisTag | ConditionalTag

  function Tag(e: Expr): ExprTag {
    match e
    case Binary(_, _, _) => BinaryTag
    case Grouping(_) => GroupingTag
    case Literal(_) => LiteralTag
    case Unary(_, _) => UnaryTag
    case Variable(_) => VariableTag
    case CallExpression(_, _, _) => CallTag
    case Assign(_, _) => AssignTag
    case Logical(_, _, _) => LogicalTag
    case ThisExpression(_) => ThisTag
    case Conditional(_, _, _) => ConditionalTag
  }

  /** `Expression.Visitor<T>`: one `Visit` per variant. */
  datatype Visitor<T> = Visitor(
    visitBinary: Expr -> T, visitGrouping: Expr -> T, visitLiteral: Expr -> T,
    visitUnary: Expr -> T, visitVariable: Expr -> T, visitCall: Expr -> T,
    visitAssign: Expr -> T, visitLogical: Expr -> T, visitThis: Expr -> T,
    visitConditional: Expr -> T)

  /** The overload of `Visit` that handles the variant `tag`. */
  function VisitFor<T>(v: Visitor<T>, tag: ExprTag): Expr -> T {
    match tag
    case BinaryTag => v.visitBinary
    case GroupingTag => v.visitGrouping
    case LiteralTag => v.visitLiteral
    case UnaryTag => v.visitUnary
    case VariableTag => v.visitVariable
    case CallTag => v.visitCall
    case AssignTag => v.visitAssign
    case LogicalTag => v.visitLogical
    case ThisTag => v.visitThis
    case ConditionalTag => v.visitConditional
  }

  /** `Accept`: every variant hands itself to its own `Visit`. */
  function Accept<T>(e: Expr, v: Visitor<T>): (r: T)
    ensures r == VisitFor(v, Tag(e))(e)
  {
    match e
    case Binary(_, _, _) => v.visitBinary(e)
    case Grouping(_) => v.visitGrouping(e)
    case Literal(_) => v.visitLiteral(e)
    case Unary(_, _) => v.visitUnary(e)
    case Variable(_) => v.visitVariable(e)
    case CallExpression(_, _, _) => v.visitCall(e)
    case Assign(_, _) => v.visitAssign(e)
    case Logical(_, _, _) => v.visitLogical(e)
    case ThisExpression(_) => v.visitThis(e)
    case Conditional(_, _, _) => v.visitConditional(e)
  }

  /** Calling `ToString` on a literal whose value is null throws. */
  datatype RenderFault = NullReference

  /** `Literal.ToString`: a token value renders as its lexeme, any other
      value as its own text; the null value (`nil`) throws. */
  function LiteralText(v: Value): (r: Result<string, RenderFault>)
    ensures r.Failure? <==> v == Null
    ensures v.TokenRef? ==> r == Success(v.t.lexeme)
    ensures v.Text? ==> r == Success(v.s)
    ensures v.Boolean? ==> r == Success(if v.b then "True" else "False")
    ensures v.Num? ==> r == Success(v.text)
    ensures v != Null && !v.TokenRef? ==> r == Success(ValueText(v))
  {
    match v
    case Null => Failure(NullReference)
    case Boolean(b) => Success(if b then "True" else "False")
    case Num(text) => Success(text)
    case Text(s) => Success(s)
    case TokenRef(t) => Success(t.lexeme)
  }

  /** The .NET name a variant without its own `ToString` renders as. */
  function DefaultName(tag: ExprTag): (name: string)
    ensures |"CraftInterpreter.Lox.Expression+"| < |name|
    ensures name[..|"CraftInterpreter.Lox.Expression+"|] == "CraftInterpreter.Lox.Expression+"
  {
    "CraftInterpreter.Lox.Expression+" +
    match tag
    case BinaryTag => "Binary"
    case GroupingTag => "Grouping"
    case LiteralTag => "Literal"
    case UnaryTag => "Unary"
    case VariableTag => "Variable"
    case CallTag => "CallExpression"
    case AssignTag => "Assign"
    case LogicalTag => "Logical"
    case ThisTag => "ThisExpression"
    case ConditionalTag => "Conditional"
  }

  /** An expression slot used as an operand of string concatenation: a null
      reference contributes the empty string. */
  function SlotText(e: Option<Expr>): (r: Result<string, RenderFault>)
    decreases e, 1
    ensures e.None? ==> r == Success("")
    ensures e.Some? ==> r == Render(e.value)
  {
    match e
    case None => Success("")
    case Some(x) => Render(x)
  }

  /** `ToString` of an expression: `Binary` renders as
      "left operator right", `Literal` as its value, every other variant as
      its type name. */
  function Render(e: Expr): (r: Result<string, RenderFault>)
    decreases e, 0
    ensures e.Binary? ==> (r.Success? <==> SlotText(e.left).Success? && SlotText(e.right).Success?)
    ensures e.Binary? && r.Success? ==>
              r.value == SlotText(e.left).value + " " + e.operator.lexeme + " " + SlotText(e.right).value
    ensures e.Literal? ==> r == LiteralText(e.value)
    ensures !e.Binary? && !e.Literal? ==> r == Success(DefaultName(Tag(e)))
  {
    match e
    case Binary(l, op, r) =>
      var left :- SlotText(l);
      var right :- SlotText(r);
      Success(left + " " + op.lexeme + " " + right)
    case Literal(v) => LiteralText(v)
    case _ => Success(DefaultName(Tag(e)))
  }
}

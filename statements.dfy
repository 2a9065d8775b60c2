/** The statement tree.  A block's entries come from `Declaration`, which
    yields null for a declaration that failed to parse, so they are
    `Option<Stmt>`; so is the optional `else` branch. */
module Statements {
  import opened Results
  import opened Tokens
  import opened Expressions

  /** A function declaration; a class may hold only these as methods. */
  datatype FunctionDecl = FunctionDecl(name: Token, parameters: seq<Token>, body: seq<Option<Stmt>>)

  datatype Stmt =
    | Block(statements: seq<Option<Stmt>>)
    | Class(name: Token, superClass: Option<Expr>, methods: seq<FunctionDecl>)
    | ExpressionStatement(expression: Option<Expr>)
    | Function(decl: FunctionDecl)
    | IfStatement(condition: Option<Expr>, thenBranch: Stmt, elseBranch: Option<Stmt>)
    | Print(expression: Option<Expr>)
    | Return(keyword: Token, value: Option<Expr>)
    | Var(name: Token, initializer: Option<Expr>)
    | While(condition: Option<Expr>, body: Stmt)
    | Break

  /** The ten variants, one per `Visit` overload. */
  datatype StmtTag =
    | BlockTag | ClassTag | ExpressionTag | FunctionTag | IfTag
    | PrintTag | ReturnTag | VarTag | WhileTag | BreakTag

  function Tag(s: Stmt): StmtTag {
    match s
    case Block(_) => BlockTag
    case Class(_, _, _) => ClassTag
    case ExpressionStatement(_) => ExpressionTag
    case Function(_) => FunctionTag
    case IfStatement(_, _, _) => IfTag
    case Print(_) => PrintTag
    case Return(_, _) => ReturnTag
    case Var(_, _) => VarTag
    case While(_, _) => WhileTag
    case Break => BreakTag
  }

  /** `Statement.Visitor<T>`: one `Visit` per variant. */
  datatype Visitor<T> = Visitor(
    visitBlock: Stmt -> T, visitClass: Stmt -> T, visitExpression: Stmt -> T,
    visitFunction: Stmt -> T, visitIf: Stmt -> T, visitPrint: Stmt -> T,
    visitReturn: Stmt -> T, visitVar: Stmt -> T, visitWhile: Stmt -> T,
    visitBreak: Stmt -> T)

  /** The overload of `Visit` that handles the variant `tag`. */
  function VisitFor<T>(v: Visitor<T>, tag: StmtTag): Stmt -> T {
    match tag
    case BlockTag => v.visitBlock
    case ClassTag => v.visitClass
    case ExpressionTag => v.visitExpression
    case FunctionTag => v.visitFunction
    case IfTag => v.visitIf
    case PrintTag => v.visitPrint
    case ReturnTag => v.visitReturn
    case VarTag => v.visitVar
    case WhileTag => v.visitWhile
    case BreakTag => v.visitBreak
  }

  /** `Accept`: every variant hands itself to its own `Visit`. */
  function Accept<T>(s: Stmt, v: Visitor<T>): (r: T)
    ensures r == VisitFor(v, Tag(s))(s)
  {
    match s
    case Block(_) => v.visitBlock(s)
    case Class(_, _, _) => v.visitClass(s)
    case ExpressionStatement(_) => v.visitExpression(s)
    case Function(_) => v.visitFunction(s)
    case IfStatement(_, _, _) => v.visitIf(s)
    case Print(_) => v.visitPrint(s)
    case Return(_, _) => v.visitReturn(s)
    case Var(_, _) => v.visitVar(s)
    case While(_, _) => v.visitWhile(s)
    case Break => v.visitBreak(s)
  }

  /** The .NET name a variant without its own `ToString` renders as. */
  function DefaultName(tag: StmtTag): (name: string)
    ensures |"CraftInterpreter.Lox.Statement+"| < |name|
    ensures name[..|"CraftInterpreter.Lox.Statement+"|] == "CraftInterpreter.Lox.Statement+"
  {
    "CraftInterpreter.Lox.Statement+" +
    match tag
    case BlockTag => "Block"
    case ClassTag => "Class"
    case ExpressionTag => "ExpressionStatement"
    case FunctionTag => "Function"
    case IfTag => "IfStatement"
    case PrintTag => "Print"
    case ReturnTag => "Return"
    case VarTag => "Var"
    case WhileTag => "While"
    case BreakTag => "Break"
  }

  /** `ToString` of a statement: `Print` renders as "print " followed by its
      expression's rendering (nothing for a null expression); every other
      variant renders as its type name. */
  function Render(s: Stmt): (r: Result<string, RenderFault>)
    ensures s.Print? ==> r.Success? == SlotText(s.expression).Success?
    ensures s.Print? && r.Success? ==> r.value == "print " + SlotText(s.expression).value
    ensures !s.Print? ==> r == Success(DefaultName(Tag(s)))
  {
    match s
    case Print(e) =>
      var text :- SlotText(e);
      Success("print " + text)
    case _ => Success(DefaultName(Tag(s)))
  }
}

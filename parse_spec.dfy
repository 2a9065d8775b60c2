/** The reference definition of the parser.  Each function takes the token
    list and the parser's state before a call of the method of the same name
    and gives what that call returns, or the exception it throws, together
    with the state afterwards.  The `Parser` class is proved to compute
    exactly this. */
module ParseSpec {
  import opened Results
  import opened Tokens
  import opened Diagnostics
  import E = Expressions
  import S = Statements

  /** The parser's mutable state: the cursor, the loop nesting depth and
      what has been passed to the error handler so far. */
  datatype ParseState = ParseState(current: nat, loopDepth: int, reports: seq<Report>)

  /** The one exception kind the parser throws, with its message. */
  datatype ParseError = ParseError(message: string)

  /** The outcome of a parsing method: the value it returns, or the
      exception it throws; either way with the state at that point. */
  datatype Parsed<+T> = Ok(value: T, st: ParseState) | Err(error: ParseError, st: ParseState) {
    predicate IsFailure() {
      Err?
    }

    function PropagateFailure<U>(): Parsed<U>
      requires Err?
    {
      Err(error, st)
    }

    function Extract(): (T, ParseState)
      requires Ok?
    {
      (value, st)
    }
  }

  // ---------------------------------------------------------------------
  // Messages, as the source words them

  const TooManyParameters := "Cannot have more then 32 parameters."
  const ExpectParenAfterFor := "Expect '(' after 'for'."
  const ExpectParenAfterIf := "Expect '(' after 'if'."
  const ExpectParenAfterWhile := "Expect '(' after 'while'."
  const ExpectParenAfterCondition := "Expect ')' after condition."
  const ExpectParenAfterExpression := "Expect ')' after expression."
  const ExpectParenAfterForClauses := "Expect ')' after for clauses."
  const ExpectParenAfterIfCondition := "Expect ')' after if condition."
  const ExpectParenAfterParameters := "Expect ')' after parameters."
  const ExpectAfterExpression := "Expect ':' after expression."
  const ExpectSemicolonAfterBreak := "Expect ';' after 'break'."
  const ExpectSemicolonAfterLoopCondition := "Expect ';' after loop condition"
  const ExpectSemicolonAfterReturn := "Expect ';' after return value."
  const ExpectSemicolonAfterValue := "Expect ';' after value."
  const ExpectSemicolonAfterVar := "Expect ';' after variable declaration."
  const ExpectBraceAfterBlock := "Expect '}' after block."
  const ExpectParameterName := "Expect parameter name."
  const ExpectVariableName := "Expect variable name."
  const ExpectExpression := "Expected expression."
  const InvalidAssignmentTarget := "Invalid assignment target."
  const MissingLeftOperand := "Missing left-hand operand."
  const BreakOutsideLoop := "Must be inside a loop to use 'break'"
  /** `"Expect " + kind + " name."` */
  function ExpectName(kind: string): string {
    "Expect " + kind + " name."
  }

  /** `"Expect '(' after " + kind + " name."` */
  function ExpectParenAfterName(kind: string): string {
    "Expect '(' after " + kind + " name."
  }

  /** `"Expect '{' before " + kind + " body."` */
  function ExpectBraceBeforeBody(kind: string): string {
    "Expect '{' before " + kind + " body."
  }

  /** `MaxFunctionArgumentsCount`. */
  const MaxParameters := 32

  /** The token kinds `Synchronize` stops in front of. */
  const StatementStarts: set<TokenType> := {Class, Fun, Var, For, If, While, Print, Return}

  /** The token list ends with `Eof` and the cursor is on a token. */
  predicate Ready(ts: seq<Token>, s: ParseState) {
    |ts| > 0 && ts[|ts| - 1].kind == Eof && s.current < |ts|
  }

  /** `t` is a state a call started in `s` can end in: the cursor has not
      moved back and is still on a token, the loop depth is what it was, and
      reports have only been appended. */
  predicate Follows(ts: seq<Token>, s: ParseState, t: ParseState) {
    t.current < |ts| && s.current <= t.current && t.loopDepth == s.loopDepth && s.reports <= t.reports
  }

  // ---------------------------------------------------------------------
  // The cursor

  predicate IsAtEnd(ts: seq<Token>, s: ParseState)
    requires s.current < |ts|
    ensures Ready(ts, s) && s.current == |ts| - 1 ==> IsAtEnd(ts, s)
  {
    ts[s.current].kind == Eof
  }

  /** `Check(kind)`: the current token has the kind, and is not `Eof`. */
  predicate Check(ts: seq<Token>, s: ParseState, kind: TokenType)
    requires s.current < |ts|
  {
    !IsAtEnd(ts, s) && ts[s.current].kind == kind
  }

  /** `MatchAny(kinds)` succeeds: the current token is not `Eof` and has one
      of the kinds. */
  predicate Matches(ts: seq<Token>, s: ParseState, kinds: seq<TokenType>)
    requires s.current < |ts|
  {
    !IsAtEnd(ts, s) && ts[s.current].kind in kinds
  }

  /** The state after `Advance`: one token further unless at `Eof`. */
  function Advanced(ts: seq<Token>, s: ParseState): (t: ParseState)
    requires Ready(ts, s)
    ensures Ready(ts, t) && t.loopDepth == s.loopDepth && t.reports == s.reports
    ensures t.current == if IsAtEnd(ts, s) then s.current else s.current + 1
  {
    if IsAtEnd(ts, s) then s else s.(current := s.current + 1)
  }

  /** The state after `Error(token, message)`. */
  function Reported(s: ParseState, token: Token, message: string): ParseState
  {
    s.(reports := s.reports + [TokenError(token, message)])
  }

  function Deeper(s: ParseState): ParseState
  {
    s.(loopDepth := s.loopDepth + 1)
  }

  function Shallower(s: ParseState): ParseState
  {
    s.(loopDepth := s.loopDepth - 1)
  }

  /** `Consume(kind, message)`: the current token, consumed, when it has the
      kind; otherwise the exception with the message, nothing consumed and
      nothing reported. */
  function Consume(ts: seq<Token>, s: ParseState, kind: TokenType, message: string): (r: Parsed<Token>)
    requires Ready(ts, s)
  {
    if Check(ts, s, kind) then Ok(ts[s.current], Advanced(ts, s)) else Err(ParseError(message), s)
  }

  /** `Synchronize`: skip the offending token, then tokens up to the end, a
      token just after ';', or a token that starts a statement. */
  function Synchronize(ts: seq<Token>, s: ParseState): (t: ParseState)
    requires Ready(ts, s) && (!IsAtEnd(ts, s) || s.current >= 1)
    ensures Follows(ts, s, t) && (!IsAtEnd(ts, s) ==> t.current > s.current)
  {
    SynchronizeLoop(ts, Advanced(ts, s))
  }

  /** The loop of `Synchronize`. */
  function SynchronizeLoop(ts: seq<Token>, s: ParseState): (t: ParseState)
    requires Ready(ts, s) && s.current >= 1
    ensures Follows(ts, s, t)
    decreases |ts| - s.current
  {
    if IsAtEnd(ts, s) || ts[s.current - 1].kind == Semicolon || ts[s.current].kind in StatementStarts then s
    else SynchronizeLoop(ts, Advanced(ts, s))
  }

  // ---------------------------------------------------------------------
  // Declarations and statements

  /** `Parse` from state `s`: one entry per `Declaration` call until `Eof`. */
  function Parse(ts: seq<Token>, s: ParseState): (r: (seq<Option<S.Stmt>>, ParseState))
    requires Ready(ts, s)
    ensures Follows(ts, s, r.1) && IsAtEnd(ts, r.1)
  {
    ParseLoop(ts, s, [])
  }

  /** The loop of `Parse`, with the entries collected so far. */
  function ParseLoop(ts: seq<Token>, s: ParseState, done: seq<Option<S.Stmt>>): (r: (seq<Option<S.Stmt>>, ParseState))
    requires Ready(ts, s)
    ensures Follows(ts, s, r.1) && IsAtEnd(ts, r.1)
    decreases |ts| - s.current, 29
  {
    if IsAtEnd(ts, s) then (done, s)
    else
      var (d, s1) := Declaration(ts, s);
      ParseLoop(ts, s1, done + [d])
  }

  /** `Declaration`: a variable or function declaration or a statement;
      when that throws, the parser synchronizes and the entry is null. */
  function Declaration(ts: seq<Token>, s: ParseState): (r: (Option<S.Stmt>, ParseState))
    requires Ready(ts, s) && (!IsAtEnd(ts, s) || s.current >= 1)
    ensures Follows(ts, s, r.1) && (!IsAtEnd(ts, s) ==> r.1.current > s.current)
    decreases |ts| - s.current, 26
  {
    var attempt :=
      if Matches(ts, s, [Var]) then VarDeclaration(ts, Advanced(ts, s))
      else if Matches(ts, s, [Fun]) then Function(ts, Advanced(ts, s), "function")
      else Statement(ts, s);
    match attempt
    case Ok(st, t) => (Some(st), t)
    case Err(_, t) => (None, Synchronize(ts, t))
  }

  /** `Function(kind)`, after `fun`: name, parenthesised parameters, body. */
  function Function(ts: seq<Token>, s: ParseState, kind: string): (r: Parsed<S.Stmt>)
    requires Ready(ts, s)
    ensures Follows(ts, s, r.st) && (r.Ok? ==> r.st.current > s.current)
    decreases |ts| - s.current, 25
  {
    match Consume(ts, s, Identifier, ExpectName(kind))
    case Err(err, at) => Err(err, at)
    case Ok(name, s1) =>
      match Consume(ts, s1, LeftParenthesis, ExpectParenAfterName(kind))
      case Err(err, at) => Err(err, at)
      case Ok(_, s2) =>
        match ParameterList(ts, s2)
        case Err(err, at) => Err(err, at)
        case Ok(parameters, s4) =>
          match Consume(ts, s4, LeftBrace, ExpectBraceBeforeBody(kind))
          case Err(err, at) => Err(err, at)
          case Ok(_, s5) =>
            match Block(ts, s5)
            case Err(err, at) => Err(err, at)
            case Ok(body, s6) =>
              Ok(S.Function(S.FunctionDecl(name, parameters, body)), s6)
  }

  /** The parameters of `Function` after its '(', and the ')'. */
  function ParameterList(ts: seq<Token>, s: ParseState): (r: Parsed<seq<Token>>)
    requires Ready(ts, s)
    ensures Follows(ts, s, r.st) && (r.Ok? ==> r.st.current > s.current)
  {
    match if !Check(ts, s, RightParenthesis) then Parameters(ts, s, []) else Ok([], s)
    case Err(err, at) => Err(err, at)
    case Ok(parameters, s1) =>
      match Consume(ts, s1, RightParenthesis, ExpectParenAfterParameters)
      case Err(err, at) => Err(err, at)
      case Ok(_, s2) =>
        Ok(parameters, s2)
  }

  /** The `do … while (MatchAny(Comma))` loop of `Function`, with the
      parameters collected so far: past the cap each further parameter is
      reported at the current token and still collected. */
  function Parameters(ts: seq<Token>, s: ParseState, done: seq<Token>): (r: Parsed<seq<Token>>)
    requires Ready(ts, s)
    ensures Follows(ts, s, r.st) && (r.Ok? ==> r.st.current > s.current)
    decreases |ts| - s.current
  {
    var s1 := if |done| >= MaxParameters then Reported(s, ts[s.current], TooManyParameters) else s;
    match Consume(ts, s1, Identifier, ExpectParameterName)
    case Err(err, at) => Err(err, at)
    case Ok(parameter, s2) =>
      if Matches(ts, s2, [Comma]) then Parameters(ts, Advanced(ts, s2), done + [parameter])
      else Ok(done + [parameter], s2)
  }

  /** `VarDeclaration`, after `var`. */
  function VarDeclaration(ts: seq<Token>, s: ParseState): (r: Parsed<S.Stmt>)
    requires Ready(ts, s)
    ensures Follows(ts, s, r.st) && (r.Ok? ==> r.st.current > s.current)
  {
    match Consume(ts, s, Identifier, ExpectVariableName)
    case Err(err, at) => Err(err, at)
    case Ok(name, s1) =>
      match if Matches(ts, s1, [Equal]) then Expression(ts, Advanced(ts, s1)) else Ok(None, s1)
      case Err(err, at) => Err(err, at)
      case Ok(initializer, s2) =>
        match Consume(ts, s2, Semicolon, ExpectSemicolonAfterVar)
        case Err(err, at) => Err(err, at)
        case Ok(_, s3) =>
          Ok(S.Var(name, initializer), s3)
  }

  /** `Statement`: dispatch on the first token. */
  function Statement(ts: seq<Token>, s: ParseState): (r: Parsed<S.Stmt>)
    requires Ready(ts, s)
    ensures Follows(ts, s, r.st) && (r.Ok? ==> r.st.current > s.current)
    decreases |ts| - s.current, 22
  {
    if Matches(ts, s, [For]) then ForStatement(ts, Advanced(ts, s))
    else if Matches(ts, s, [TokenType.Break]) then BreakStatement(ts, Advanced(ts, s))
    else if Matches(ts, s, [If]) then IfStatement(ts, Advanced(ts, s))
    else if Matches(ts, s, [TokenType.Print]) then PrintStatement(ts, Advanced(ts, s))
    else if Matches(ts, s, [TokenType.Return]) then ReturnStatement(ts, Advanced(ts, s))
    else if Matches(ts, s, [TokenType.While]) then WhileStatement(ts, Advanced(ts, s))
    else if Matches(ts, s, [LeftBrace]) then
      (match Block(ts, Advanced(ts, s))
      case Err(err, at) => Err(err, at)
      case Ok(statements, s1) =>
        Ok(S.Block(statements), s1))
    else ExpressionStatement(ts, s)
  }

  /** `PrintStatement`, after `print`. */
  function PrintStatement(ts: seq<Token>, s: ParseState): (r: Parsed<S.Stmt>)
    requires Ready(ts, s)
    ensures Follows(ts, s, r.st) && (r.Ok? ==> r.st.current > s.current)
  {
    match Expression(ts, s)
    case Err(err, at) => Err(err, at)
    case Ok(value, s1) =>
      match Consume(ts, s1, Semicolon, ExpectSemicolonAfterValue)
      case Err(err, at) => Err(err, at)
      case Ok(_, s2) =>
        Ok(S.Print(value), s2)
  }

  /** `ReturnStatement`, after `return` (the previous token). */
  function ReturnStatement(ts: seq<Token>, s: ParseState): (r: Parsed<S.Stmt>)
    requires Ready(ts, s) && s.current >= 1
    ensures Follows(ts, s, r.st) && (r.Ok? ==> r.st.current > s.current)
  {
    var keyword := ts[s.current - 1];
    match if !Check(ts, s, Semicolon) then Expression(ts, s) else Ok(None, s)
    case Err(err, at) => Err(err, at)
    case Ok(value, s1) =>
      match Consume(ts, s1, Semicolon, ExpectSemicolonAfterReturn)
      case Err(err, at) => Err(err, at)
      case Ok(_, s2) =>
        Ok(S.Return(keyword, value), s2)
  }

  /** The initializer clause of `ForStatement`: none for ';', else a
      variable declaration or an expression statement. */
  function ForInitializer(ts: seq<Token>, s: ParseState): (r: Parsed<Option<S.Stmt>>)
    requires Ready(ts, s)
    ensures Follows(ts, s, r.st) && (r.Ok? ==> r.st.current > s.current)
  {
    if Matches(ts, s, [Semicolon]) then Ok(None, Advanced(ts, s))
    else if Matches(ts, s, [Var]) then
      (match VarDeclaration(ts, Advanced(ts, s))
      case Err(err, at) => Err(err, at)
      case Ok(declaration, s1) =>
        Ok(Some(declaration), s1))
    else
      match ExpressionStatement(ts, s)
      case Err(err, at) => Err(err, at)
      case Ok(statement, s1) =>
        Ok(Some(statement), s1)
  }

  /** The condition clause of `ForStatement` and its ';'. */
  function ForCondition(ts: seq<Token>, s: ParseState): (r: Parsed<Option<E.Expr>>)
    requires Ready(ts, s)
    ensures Follows(ts, s, r.st) && (r.Ok? ==> r.st.current > s.current)
  {
    match if !Check(ts, s, Semicolon) then Expression(ts, s) else Ok(None, s)
    case Err(err, at) => Err(err, at)
    case Ok(condition, s1) =>
      match Consume(ts, s1, Semicolon, ExpectSemicolonAfterLoopCondition)
      case Err(err, at) => Err(err, at)
      case Ok(_, s2) =>
        Ok(condition, s2)
  }

  /** The increment clause of `ForStatement` and its ')'. */
  function ForIncrement(ts: seq<Token>, s: ParseState): (r: Parsed<Option<E.Expr>>)
    requires Ready(ts, s)
    ensures Follows(ts, s, r.st) && (r.Ok? ==> r.st.current > s.current)
  {
    match if !Check(ts, s, RightParenthesis) then Expression(ts, s) else Ok(None, s)
    case Err(err, at) => Err(err, at)
    case Ok(increment, s1) =>
      match Consume(ts, s1, RightParenthesis, ExpectParenAfterForClauses)
      case Err(err, at) => Err(err, at)
      case Ok(_, s2) =>
        Ok(increment, s2)
  }

  /** The clauses of a `for`: initializer, condition and increment, each
      null when absent (a condition or increment expression that parses to
      null counts as absent). */
  datatype ForClauses = ForClauses(initializer: Option<S.Stmt>, condition: Option<E.Expr>, increment: Option<E.Expr>)

  /** The parenthesised clauses of `ForStatement`, after `for`. */
  function ForHeader(ts: seq<Token>, s: ParseState): (r: Parsed<ForClauses>)
    requires Ready(ts, s)
    ensures Follows(ts, s, r.st) && (r.Ok? ==> r.st.current > s.current)
  {
    match Consume(ts, s, LeftParenthesis, ExpectParenAfterFor)
    case Err(err, at) => Err(err, at)
    case Ok(_, s1) =>
      match ForInitializer(ts, s1)
      case Err(err, at) => Err(err, at)
      case Ok(initializer, s2) =>
        match ForCondition(ts, s2)
        case Err(err, at) => Err(err, at)
        case Ok(condition, s3) =>
          match ForIncrement(ts, s3)
          case Err(err, at) => Err(err, at)
          case Ok(increment, s4) =>
            Ok(ForClauses(initializer, condition, increment), s4)
  }

  /** `ForStatement`, after `for`: the clauses, then the body one loop
      deeper, desugared into `While` and `Block`.  The loop depth is
      restored whether the body parses or throws. */
  function ForStatement(ts: seq<Token>, s: ParseState): (r: Parsed<S.Stmt>)
    requires Ready(ts, s)
    ensures Follows(ts, s, r.st) && (r.Ok? ==> r.st.current > s.current)
    decreases |ts| - s.current, 21
  {
    match ForHeader(ts, s)
    case Err(err, at) => Err(err, at)
    case Ok(clauses, s1) =>
      match LoopBody(ts, s1)
      case Err(err, at) => Err(err, at)
      case Ok(body, t) =>
        var inner := if clauses.increment.Some? then S.Block([Some(body), Some(S.ExpressionStatement(clauses.increment))]) else body;
        var condition := if clauses.condition.None? then Some(E.Literal(Boolean(true))) else clauses.condition;
        var loop := S.While(condition, inner);
        Ok(if clauses.initializer.None? then loop else S.Block([clauses.initializer, Some(loop)]), t)
  }

  /** `BreakStatement`, after `break` (the previous token): reported when
      not inside a loop, then `;` is still required. */
  function BreakStatement(ts: seq<Token>, s: ParseState): (r: Parsed<S.Stmt>)
    requires Ready(ts, s) && s.current >= 1
    ensures Follows(ts, s, r.st) && (r.Ok? ==> r.st.current > s.current)
  {
    var s1 := if s.loopDepth == 0 then Reported(s, ts[s.current - 1], BreakOutsideLoop) else s;
    match Consume(ts, s1, Semicolon, ExpectSemicolonAfterBreak)
    case Err(err, at) => Err(err, at)
    case Ok(_, s2) =>
      Ok(S.Break, s2)
  }

  /** `IfStatement`, after `if`. */
  function IfStatement(ts: seq<Token>, s: ParseState): (r: Parsed<S.Stmt>)
    requires Ready(ts, s)
    ensures Follows(ts, s, r.st) && (r.Ok? ==> r.st.current > s.current)
    decreases |ts| - s.current, 21
  {
    match Consume(ts, s, LeftParenthesis, ExpectParenAfterIf)
    case Err(err, at) => Err(err, at)
    case Ok(_, s1) =>
      match Expression(ts, s1)
      case Err(err, at) => Err(err, at)
      case Ok(condition, s2) =>
        match Consume(ts, s2, RightParenthesis, ExpectParenAfterIfCondition)
        case Err(err, at) => Err(err, at)
        case Ok(_, s3) =>
          match Statement(ts, s3)
          case Err(err, at) => Err(err, at)
          case Ok(thenBranch, s4) =>
            match ElseBranch(ts, s4)
            case Err(err, at) => Err(err, at)
            case Ok(elseBranch, s5) =>
              Ok(S.IfStatement(condition, thenBranch, elseBranch), s5)
  }

  /** The optional `else` branch of `IfStatement`. */
  function ElseBranch(ts: seq<Token>, s: ParseState): (r: Parsed<Option<S.Stmt>>)
    requires Ready(ts, s)
    ensures Follows(ts, s, r.st)
    decreases |ts| - s.current, 20
  {
    if Matches(ts, s, [Else]) then
      (match Statement(ts, Advanced(ts, s))
      case Err(err, at) => Err(err, at)
      case Ok(branch, s1) =>
        Ok(Some(branch), s1))
    else Ok(None, s)
  }

  /** `WhileStatement`, after `while`: the body is parsed one loop deeper,
      and the depth is restored whether it parses or throws. */
  function WhileStatement(ts: seq<Token>, s: ParseState): (r: Parsed<S.Stmt>)
    requires Ready(ts, s)
    ensures Follows(ts, s, r.st) && (r.Ok? ==> r.st.current > s.current)
    decreases |ts| - s.current, 21
  {
    match Consume(ts, s, LeftParenthesis, ExpectParenAfterWhile)
    case Err(err, at) => Err(err, at)
    case Ok(_, s1) =>
      match Expression(ts, s1)
      case Err(err, at) => Err(err, at)
      case Ok(condition, s2) =>
        match Consume(ts, s2, RightParenthesis, ExpectParenAfterCondition)
        case Err(err, at) => Err(err, at)
        case Ok(_, s3) =>
          match LoopBody(ts, s3)
          case Err(err, at) => Err(err, at)
          case Ok(body, s4) =>
            Ok(S.While(condition, body), s4)
  }

  /** The body of a `for` or `while`: a statement parsed one loop deeper,
      with the depth restored whether it parses or throws. */
  function LoopBody(ts: seq<Token>, s: ParseState): (r: Parsed<S.Stmt>)
    requires Ready(ts, s)
    ensures Follows(ts, s, r.st) && (r.Ok? ==> r.st.current > s.current)
    decreases |ts| - s.current, 23
  {
    match Statement(ts, Deeper(s))
    case Err(e, t) => Err(e, Shallower(t))
    case Ok(body, t) => Ok(body, Shallower(t))
  }

  /** `Block`, after `{`: declarations up to `}` or the end, then `}`. */
  function Block(ts: seq<Token>, s: ParseState): (r: Parsed<seq<Option<S.Stmt>>>)
    requires Ready(ts, s)
    ensures Follows(ts, s, r.st) && (r.Ok? ==> r.st.current > s.current)
    decreases |ts| - s.current, 28
  {
    var (statements, s1) := BlockLoop(ts, s, []);
    match Consume(ts, s1, RightBrace, ExpectBraceAfterBlock)
    case Err(err, at) => Err(err, at)
    case Ok(_, s2) =>
      Ok(statements, s2)
  }

  /** The loop of `Block`, with the entries collected so far. */
  function BlockLoop(ts: seq<Token>, s: ParseState, done: seq<Option<S.Stmt>>): (r: (seq<Option<S.Stmt>>, ParseState))
    requires Ready(ts, s)
    ensures Follows(ts, s, r.1)
    decreases |ts| - s.current, 27
  {
    if !Check(ts, s, RightBrace) && !IsAtEnd(ts, s) then
      var (d, s1) := Declaration(ts, s);
      BlockLoop(ts, s1, done + [d])
    else (done, s)
  }

  /** `ExpressionStatement`: an expression and its ';' (with the message
      the source gives). */
  function ExpressionStatement(ts: seq<Token>, s: ParseState): (r: Parsed<S.Stmt>)
    requires Ready(ts, s)
    ensures Follows(ts, s, r.st) && (r.Ok? ==> r.st.current > s.current)
  {
    match Expression(ts, s)
    case Err(err, at) => Err(err, at)
    case Ok(expression, s1) =>
      match Consume(ts, s1, Semicolon, ExpectAfterExpression)
      case Err(err, at) => Err(err, at)
      case Ok(_, s2) =>
        Ok(S.ExpressionStatement(expression), s2)
  }

  // ---------------------------------------------------------------------
  // Expressions

  function Expression(ts: seq<Token>, s: ParseState): (r: Parsed<Option<E.Expr>>)
    requires Ready(ts, s)
    ensures Follows(ts, s, r.st) && (r.Ok? ==> r.st.current > s.current)
    decreases |ts| - s.current, 18
  {
    Assignment(ts, s)
  }

  /** `Assignment`: right-associative; an `Assign` only when the left side
      is a variable, otherwise the report at the '=' and the left side. */
  function Assignment(ts: seq<Token>, s: ParseState): (r: Parsed<Option<E.Expr>>)
    requires Ready(ts, s)
    ensures Follows(ts, s, r.st) && (r.Ok? ==> r.st.current > s.current)
    decreases |ts| - s.current, 17
  {
    match OrOperator(ts, s)
    case Err(err, at) => Err(err, at)
    case Ok(expr, s1) =>
      if !Matches(ts, s1, [Equal]) then Ok(expr, s1)
      else
        var equal := ts[s1.current];
        match Assignment(ts, Advanced(ts, s1))
        case Err(err, at) => Err(err, at)
        case Ok(value, s2) =>
          if expr.Some? && expr.value.Variable? then Ok(Some(E.Assign(expr.value.name, value)), s2)
          else Ok(expr, Reported(s2, equal, InvalidAssignmentTarget))
  }

  function OrOperator(ts: seq<Token>, s: ParseState): (r: Parsed<Option<E.Expr>>)
    requires Ready(ts, s)
    ensures Follows(ts, s, r.st) && (r.Ok? ==> r.st.current > s.current)
    decreases |ts| - s.current, 16
  {
    match AndOperator(ts, s)
    case Err(err, at) => Err(err, at)
    case Ok(expr, s1) =>
      OrLoop(ts, s1, expr)
  }

  /** The loop of `OrOperator` with the expression built so far. */
  function OrLoop(ts: seq<Token>, s: ParseState, expr: Option<E.Expr>): (r: Parsed<Option<E.Expr>>)
    requires Ready(ts, s)
    ensures Follows(ts, s, r.st)
    decreases |ts| - s.current, 15
  {
    if Matches(ts, s, [TokenType.Or]) then
      var operator := ts[s.current];
      (match AndOperator(ts, Advanced(ts, s))
      case Err(err, at) => Err(err, at)
      case Ok(right, s1) =>
        OrLoop(ts, s1, Some(E.Logical(expr, operator, right))))
    else Ok(expr, s)
  }

  function AndOperator(ts: seq<Token>, s: ParseState): (r: Parsed<Option<E.Expr>>)
    requires Ready(ts, s)
    ensures Follows(ts, s, r.st) && (r.Ok? ==> r.st.current > s.current)
    decreases |ts| - s.current, 14
  {
    match Equality(ts, s)
    case Err(err, at) => Err(err, at)
    case Ok(expr, s1) =>
      AndLoop(ts, s1, expr)
  }

  /** The loop of `AndOperator` with the expression built so far. */
  function AndLoop(ts: seq<Token>, s: ParseState, expr: Option<E.Expr>): (r: Parsed<Option<E.Expr>>)
    requires Ready(ts, s)
    ensures Follows(ts, s, r.st)
    decreases |ts| - s.current, 13
  {
    if Matches(ts, s, [TokenType.And]) then
      var operator := ts[s.current];
      (match Equality(ts, Advanced(ts, s))
      case Err(err, at) => Err(err, at)
      case Ok(right, s1) =>
        AndLoop(ts, s1, Some(E.Logical(expr, operator, right))))
    else Ok(expr, s)
  }

  function Equality(ts: seq<Token>, s: ParseState): (r: Parsed<Option<E.Expr>>)
    requires Ready(ts, s)
    ensures Follows(ts, s, r.st) && (r.Ok? ==> r.st.current > s.current)
    decreases |ts| - s.current, 12
  {
    match Comparison(ts, s)
    case Err(err, at) => Err(err, at)
    case Ok(expression, s1) =>
      EqualityLoop(ts, s1, expression)
  }

  /** The loop of `Equality` with the expression built so far. */
  function EqualityLoop(ts: seq<Token>, s: ParseState, expression: Option<E.Expr>): (r: Parsed<Option<E.Expr>>)
    requires Ready(ts, s)
    ensures Follows(ts, s, r.st)
    decreases |ts| - s.current, 11
  {
    if Matches(ts, s, [BangEqual, EqualEqual]) then
      var operator := ts[s.current];
      (match Comparison(ts, Advanced(ts, s))
      case Err(err, at) => Err(err, at)
      case Ok(right, s1) =>
        EqualityLoop(ts, s1, Some(E.Binary(expression, operator, right))))
    else Ok(expression, s)
  }

  /** `Comparison`: two operands are parsed before the loop, and the second
      is the right operand of every comparison the loop builds. */
  function Comparison(ts: seq<Token>, s: ParseState): (r: Parsed<Option<E.Expr>>)
    requires Ready(ts, s)
    ensures Follows(ts, s, r.st) && (r.Ok? ==> r.st.current > s.current)
    decreases |ts| - s.current, 10
  {
    match Term(ts, s)
    case Err(err, at) => Err(err, at)
    case Ok(expression, s1) =>
      match Term(ts, s1)
      case Err(err, at) => Err(err, at)
      case Ok(right, s2) =>
        var (result, s3) := ComparisonLoop(ts, s2, expression, right);
        Ok(result, s3)
  }

  /** The loop of `Comparison`: each matched operator wraps the expression
      built so far with the same `right`. */
  function ComparisonLoop(ts: seq<Token>, s: ParseState, expression: Option<E.Expr>, right: Option<E.Expr>)
    : (r: (Option<E.Expr>, ParseState))
    requires Ready(ts, s)
    ensures Follows(ts, s, r.1)
    decreases |ts| - s.current
  {
    if Matches(ts, s, [Greater, GreaterEqual, Less, LessEqual]) then
      ComparisonLoop(ts, Advanced(ts, s), Some(E.Binary(expression, ts[s.current], right)), right)
    else (expression, s)
  }

  function Term(ts: seq<Token>, s: ParseState): (r: Parsed<Option<E.Expr>>)
    requires Ready(ts, s)
    ensures Follows(ts, s, r.st) && (r.Ok? ==> r.st.current > s.current)
    decreases |ts| - s.current, 8
  {
    match Factor(ts, s)
    case Err(err, at) => Err(err, at)
    case Ok(expression, s1) =>
      TermLoop(ts, s1, expression)
  }

  /** The loop of `Term` with the expression built so far. */
  function TermLoop(ts: seq<Token>, s: ParseState, expression: Option<E.Expr>): (r: Parsed<Option<E.Expr>>)
    requires Ready(ts, s)
    ensures Follows(ts, s, r.st)
    decreases |ts| - s.current, 7
  {
    if Matches(ts, s, [Minus, Plus]) then
      var operator := ts[s.current];
      (match Factor(ts, Advanced(ts, s))
      case Err(err, at) => Err(err, at)
      case Ok(right, s1) =>
        TermLoop(ts, s1, Some(E.Binary(expression, operator, right))))
    else Ok(expression, s)
  }

  /** `Factor`: like `Comparison`, two operands up front and the second
      reused for every operator. */
  function Factor(ts: seq<Token>, s: ParseState): (r: Parsed<Option<E.Expr>>)
    requires Ready(ts, s)
    ensures Follows(ts, s, r.st) && (r.Ok? ==> r.st.current > s.current)
    decreases |ts| - s.current, 6
  {
    match Unary(ts, s)
    case Err(err, at) => Err(err, at)
    case Ok(expression, s1) =>
      match Unary(ts, s1)
      case Err(err, at) => Err(err, at)
      case Ok(right, s2) =>
        var (result, s3) := FactorLoop(ts, s2, expression, right);
        Ok(result, s3)
  }

  /** The loop of `Factor`. */
  function FactorLoop(ts: seq<Token>, s: ParseState, expression: Option<E.Expr>, right: Option<E.Expr>)
    : (r: (Option<E.Expr>, ParseState))
    requires Ready(ts, s)
    ensures Follows(ts, s, r.1)
    decreases |ts| - s.current
  {
    if Matches(ts, s, [Slash, Star, Modulus]) then
      FactorLoop(ts, Advanced(ts, s), Some(E.Binary(expression, ts[s.current], right)), right)
    else (expression, s)
  }

  /** `Unary`: after `!` or `-` the operand is parsed and dropped, and the
      result is a further `Primary`; otherwise just `Primary`. */
  function Unary(ts: seq<Token>, s: ParseState): (r: Parsed<Option<E.Expr>>)
    requires Ready(ts, s)
    ensures Follows(ts, s, r.st) && (r.Ok? ==> r.st.current > s.current)
    decreases |ts| - s.current, 4
  {
    if Matches(ts, s, [Bang, Minus]) then
      (match Unary(ts, Advanced(ts, s))
      case Err(err, at) => Err(err, at)
      case Ok(_, s1) =>
        Primary(ts, s1))
    else Primary(ts, s)
  }

  /** `Primary`: literals, variables and groupings, else the error
      productions. */
  function Primary(ts: seq<Token>, s: ParseState): (r: Parsed<Option<E.Expr>>)
    requires Ready(ts, s)
    ensures Follows(ts, s, r.st) && (r.Ok? ==> r.st.current > s.current)
    decreases |ts| - s.current, 3
  {
    var token := ts[s.current];
    var next := Advanced(ts, s);
    if Matches(ts, s, [False]) then Ok(Some(E.Literal(Boolean(false))), next)
    else if Matches(ts, s, [True]) then Ok(Some(E.Literal(Boolean(true))), next)
    else if Matches(ts, s, [Nil]) then Ok(Some(E.Literal(Null)), next)
    else if Matches(ts, s, [TokenType.Number, String]) then Ok(Some(E.Literal(token.literal)), next)
    else if Matches(ts, s, [Identifier]) then Ok(Some(E.Variable(token)), next)
    else if Matches(ts, s, [LeftParenthesis]) then
      (match Expression(ts, next)
      case Err(err, at) => Err(err, at)
      case Ok(expression, s1) =>
        (match Consume(ts, s1, RightParenthesis, ExpectParenAfterExpression)
        case Err(err, at) => Err(err, at)
        case Ok(_, s2) =>
          Ok(Some(E.Grouping(expression)), s2)))
    else ErrorProduction(ts, s)
  }

  /** The error productions of `Primary`: a binary operator with no left
      operand; any other token throws. */
  function ErrorProduction(ts: seq<Token>, s: ParseState): (r: Parsed<Option<E.Expr>>)
    requires Ready(ts, s)
    ensures Follows(ts, s, r.st) && (r.Ok? ==> r.st.current > s.current)
    decreases |ts| - s.current, 2
  {
    if Matches(ts, s, [BangEqual, EqualEqual]) then MissingOperand(ts, Advanced(ts, s), EqualityLevel)
    else if Matches(ts, s, [Greater, GreaterEqual, Less, LessEqual]) then MissingOperand(ts, Advanced(ts, s), ComparisonLevel)
    else if Matches(ts, s, [Plus]) then MissingOperand(ts, Advanced(ts, s), TermLevel)
    else if Matches(ts, s, [Slash, Star, Modulus]) then MissingOperand(ts, Advanced(ts, s), FactorLevel)
    else Err(ParseError(ExpectExpression), s)
  }

  /** The precedence levels an error production parses its operand at. */
  datatype Level = EqualityLevel | ComparisonLevel | TermLevel | FactorLevel

  /** One error production, after its operator (the previous token): the
      operator is reported, the operand is parsed at the operator's level
      and dropped, and the result is null. */
  function MissingOperand(ts: seq<Token>, s: ParseState, level: Level): (r: Parsed<Option<E.Expr>>)
    requires Ready(ts, s) && s.current >= 1
    ensures Follows(ts, s, r.st) && (r.Ok? ==> r.st.current > s.current)
    decreases |ts| - s.current, 13
  {
    var s1 := Reported(s, ts[s.current - 1], MissingLeftOperand);
    var (_, s2) :- match level
                   case EqualityLevel => Equality(ts, s1)
                   case ComparisonLevel => Comparison(ts, s1)
                   case TermLevel => Term(ts, s1)
                   case FactorLevel => Factor(ts, s1);
    Ok(None, s2)
  }
}

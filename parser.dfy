/** The parser as the source has it: an object over a token list with a
    cursor and a loop depth that its recursive-descent methods update in
    place, reporting to an error handler and throwing on a missing token.
    Each method returns a `Result` in place of the exception and is proved
    to compute what the function of the same name in `ParseSpec` gives. */
module Parsing {
  import opened Results
  import opened Tokens
  import opened Diagnostics
  import E = Expressions
  import S = Statements
  import P = ParseSpec

  /** A method's outcome together with the parser state after it. */
  function Outcome<T>(r: Result<T, P.ParseError>, st: P.ParseState): P.Parsed<T> {
    if r.Success? then P.Ok(r.value, st) else P.Err(r.error, st)
  }

  class Parser {
    const tokens: seq<Token>
    var current: nat
    var loopDepth: int
    /** What the parser has passed to the error handler. */
    ghost var reports: seq<Report>

    ghost function State(): P.ParseState
      reads this
    {
      P.ParseState(current, loopDepth, reports)
    }

    ghost predicate Valid()
      reads this
    {
      P.Ready(tokens, State())
    }

    /** The token list is the scanner's output, which ends with `Eof`. */
    constructor (tokens: seq<Token>)
      requires |tokens| > 0 && tokens[|tokens| - 1].kind == Eof
      ensures Valid()
      ensures this.tokens == tokens && current == 0 && loopDepth == 0 && reports == []
    {
      this.tokens := tokens;
      current := 0;
      loopDepth := 0;
      reports := [];
    }

    // -------------------------------------------------------------------
    // The cursor

    method IsAtEnd() returns (b: bool)
      requires Valid()
      ensures b == P.IsAtEnd(tokens, State())
    {
      b := tokens[current].kind == Eof;
    }

    method Peek() returns (t: Token)
      requires Valid()
      ensures t == tokens[current]
    {
      t := tokens[current];
    }

    method Previous() returns (t: Token)
      requires Valid() && current >= 1
      ensures t == tokens[current - 1]
    {
      t := tokens[current - 1];
    }

    method Check(kind: TokenType) returns (b: bool)
      requires Valid()
      ensures b == P.Check(tokens, State(), kind)
    {
      var atEnd := IsAtEnd();
      if atEnd {
        return false;
      }
      var t := Peek();
      b := t.kind == kind;
    }

    /** Consumes the current token unless it is `Eof`, and returns the
        token before the cursor. */
    method Advance() returns (t: Token)
      requires Valid() && (!P.IsAtEnd(tokens, State()) || current >= 1)
      modifies this`current
      ensures Valid()
      ensures State() == P.Advanced(tokens, old(State())) && t == tokens[current - 1]
    {
      var atEnd := IsAtEnd();
      if !atEnd {
        current := current + 1;
      }
      t := Previous();
    }

    /** Tries the kinds in order; consumes the current token on the first
        that it has. */
    method MatchAny(kinds: seq<TokenType>) returns (matched: bool)
      requires Valid()
      modifies this`current
      ensures Valid()
      ensures matched == P.Matches(tokens, old(State()), kinds)
      ensures State() == if matched then P.Advanced(tokens, old(State())) else old(State())
    {
      for i := 0 to |kinds|
        invariant current == old(current)
        invariant forall j :: 0 <= j < i ==> !P.Check(tokens, State(), kinds[j])
      {
        var found := Check(kinds[i]);
        if found {
          var _ := Advance();
          return true;
        }
      }
      return false;
    }

    method Consume(kind: TokenType, message: string) returns (r: Result<Token, P.ParseError>)
      requires Valid()
      modifies this`current
      ensures Valid()
      ensures Outcome(r, State()) == P.Consume(tokens, old(State()), kind, message)
    {
      var found := Check(kind);
      if found {
        var t := Advance();
        return Success(t);
      }
      return Failure(P.ParseError(message));
    }

    method Error(token: Token, message: string)
      modifies this`reports
      ensures reports == old(reports) + [TokenError(token, message)]
    {
      reports := reports + [TokenError(token, message)];
    }

    method Synchronize()
      requires Valid() && (!P.IsAtEnd(tokens, State()) || current >= 1)
      modifies this`current
      ensures Valid()
      ensures State() == P.Synchronize(tokens, old(State()))
    {
      var _ := Advance();
      var atEnd := IsAtEnd();
      while !atEnd
        invariant Valid() && current >= 1 && atEnd == P.IsAtEnd(tokens, State())
        invariant P.SynchronizeLoop(tokens, State()) == P.Synchronize(tokens, old(State()))
        decreases |tokens| - current
      {
        var previous := Previous();
        if previous.kind == Semicolon {
          return;
        }
        var next := Peek();
        if next.kind in P.StatementStarts {
          return;
        }
        var _ := Advance();
        atEnd := IsAtEnd();
      }
    }

    // -------------------------------------------------------------------
    // Declarations and statements

    method Parse() returns (statements: seq<Option<S.Stmt>>)
      requires Valid()
      modifies this
      ensures Valid()
      ensures (statements, State()) == P.Parse(tokens, old(State()))
    {
      statements := [];
      var atEnd := IsAtEnd();
      while !atEnd
        invariant Valid() && atEnd == P.IsAtEnd(tokens, State())
        invariant P.ParseLoop(tokens, State(), statements) == P.Parse(tokens, old(State()))
        decreases |tokens| - current
      {
        var d := Declaration();
        statements := statements + [d];
        atEnd := IsAtEnd();
      }
    }

    method Declaration() returns (d: Option<S.Stmt>)
      requires Valid() && (!P.IsAtEnd(tokens, State()) || current >= 1)
      modifies this
      decreases |tokens| - current, 26
      ensures Valid()
      ensures (d, State()) == P.Declaration(tokens, old(State()))
    {
      var attempt: Result<S.Stmt, P.ParseError>;
      var isVar := MatchAny([Var]);
      if isVar {
        attempt := VarDeclaration();
      } else {
        var isFun := MatchAny([Fun]);
        if isFun {
          attempt := Function("function");
        } else {
          attempt := Statement();
        }
      }
      if attempt.Failure? {
        Synchronize();
        return None;
      }
      return Some(attempt.value);
    }

    method Function(kind: string) returns (r: Result<S.Stmt, P.ParseError>)
      requires Valid()
      modifies this
      decreases |tokens| - current, 25
      ensures Valid()
      ensures Outcome(r, State()) == P.Function(tokens, old(State()), kind)
    {
      var name :- Consume(Identifier, P.ExpectName(kind));
      var _ :- Consume(LeftParenthesis, P.ExpectParenAfterName(kind));
      var parameters :- ParameterList();
      var _ :- Consume(LeftBrace, P.ExpectBraceBeforeBody(kind));
      var body :- Block();
      return Success(S.Function(S.FunctionDecl(name, parameters, body)));
    }

    /** The parameters after `(`, collected by a `do … while` loop on
        commas, and the closing `)`. */
    method ParameterList() returns (r: Result<seq<Token>, P.ParseError>)
      requires Valid()
      modifies this
      ensures Valid()
      ensures Outcome(r, State()) == P.ParameterList(tokens, old(State()))
    {
      var parameters: seq<Token> := [];
      var closing := Check(RightParenthesis);
      if !closing {
        var more := true;
        while more
          invariant Valid()
          invariant more ==> P.Parameters(tokens, State(), parameters) == P.Parameters(tokens, old(State()), [])
          invariant !more ==> P.Parameters(tokens, old(State()), []) == P.Ok(parameters, State())
          decreases |tokens| - current, if more then 1 else 0
        {
          if |parameters| >= P.MaxParameters {
            var next := Peek();
            Error(next, P.TooManyParameters);
          }
          var parameter :- Consume(Identifier, P.ExpectParameterName);
          parameters := parameters + [parameter];
          more := MatchAny([Comma]);
        }
      }
      var _ :- Consume(RightParenthesis, P.ExpectParenAfterParameters);
      return Success(parameters);
    }

    method VarDeclaration() returns (r: Result<S.Stmt, P.ParseError>)
      requires Valid()
      modifies this
      decreases |tokens| - current, 23
      ensures Valid()
      ensures Outcome(r, State()) == P.VarDeclaration(tokens, old(State()))
    {
      var name :- Consume(Identifier, P.ExpectVariableName);
      var initializer: Option<E.Expr> := None;
      var hasInitializer := MatchAny([Equal]);
      if hasInitializer {
        initializer :- Expression();
      }
      var _ :- Consume(Semicolon, P.ExpectSemicolonAfterVar);
      return Success(S.Var(name, initializer));
    }

    method Statement() returns (r: Result<S.Stmt, P.ParseError>)
      requires Valid()
      modifies this
      decreases |tokens| - current, 22
      ensures Valid()
      ensures Outcome(r, State()) == P.Statement(tokens, old(State()))
    {
      var m := MatchAny([For]);
      if m {
        r := ForStatement();
        return;
      }
      m := MatchAny([TokenType.Break]);
      if m {
        r := BreakStatement();
        return;
      }
      m := MatchAny([If]);
      if m {
        r := IfStatement();
        return;
      }
      m := MatchAny([TokenType.Print]);
      if m {
        r := PrintStatement();
        return;
      }
      m := MatchAny([TokenType.Return]);
      if m {
        r := ReturnStatement();
        return;
      }
      m := MatchAny([TokenType.While]);
      if m {
        r := WhileStatement();
        return;
      }
      m := MatchAny([LeftBrace]);
      if m {
        var statements :- Block();
        return Success(S.Block(statements));
      }
      r := ExpressionStatement();
    }

    method PrintStatement() returns (r: Result<S.Stmt, P.ParseError>)
      requires Valid()
      modifies this
      decreases |tokens| - current, 20
      ensures Valid()
      ensures Outcome(r, State()) == P.PrintStatement(tokens, old(State()))
    {
      var value :- Expression();
      var _ :- Consume(Semicolon, P.ExpectSemicolonAfterValue);
      return Success(S.Print(value));
    }

    method ReturnStatement() returns (r: Result<S.Stmt, P.ParseError>)
      requires Valid() && current >= 1
      modifies this
      decreases |tokens| - current, 20
      ensures Valid()
      ensures Outcome(r, State()) == P.ReturnStatement(tokens, old(State()))
    {
      var keyword := Previous();
      var value: Option<E.Expr> := None;
      var atSemicolon := Check(Semicolon);
      if !atSemicolon {
        value :- Expression();
      }
      var _ :- Consume(Semicolon, P.ExpectSemicolonAfterReturn);
      return Success(S.Return(keyword, value));
    }

    /** The clauses of a `for` and the body one loop deeper, desugared into
        `While` and `Block`. */
    method ForStatement() returns (r: Result<S.Stmt, P.ParseError>)
      requires Valid()
      modifies this
      decreases |tokens| - current, 21
      ensures Valid()
      ensures Outcome(r, State()) == P.ForStatement(tokens, old(State()))
    {
      var clauses :- ForHeader();
      var body :- LoopBody();
      if clauses.increment.Some? {
        body := S.Block([Some(body), Some(S.ExpressionStatement(clauses.increment))]);
      }
      var condition := clauses.condition;
      if condition.None? {
        condition := Some(E.Literal(Boolean(true)));
      }
      body := S.While(condition, body);
      if clauses.initializer.None? {
        return Success(body);
      }
      body := S.Block([clauses.initializer, Some(body)]);
      return Success(body);
    }

    method ForHeader() returns (r: Result<P.ForClauses, P.ParseError>)
      requires Valid()
      modifies this
      decreases |tokens| - current, 20
      ensures Valid()
      ensures Outcome(r, State()) == P.ForHeader(tokens, old(State()))
    {
      var _ :- Consume(LeftParenthesis, P.ExpectParenAfterFor);
      var initializer :- ForInitializer();
      var condition :- ForCondition();
      var increment :- ForIncrement();
      return Success(P.ForClauses(initializer, condition, increment));
    }

    method ForInitializer() returns (r: Result<Option<S.Stmt>, P.ParseError>)
      requires Valid()
      modifies this
      decreases |tokens| - current, 20
      ensures Valid()
      ensures Outcome(r, State()) == P.ForInitializer(tokens, old(State()))
    {
      var m := MatchAny([Semicolon]);
      if m {
        // `for (;` has no initializer
        return Success(None);
      }
      m := MatchAny([Var]);
      if m {
        var declaration :- VarDeclaration();
        return Success(Some(declaration));
      }
      var statement :- ExpressionStatement();
      return Success(Some(statement));
    }

    method ForCondition() returns (r: Result<Option<E.Expr>, P.ParseError>)
      requires Valid()
      modifies this
      decreases |tokens| - current, 20
      ensures Valid()
      ensures Outcome(r, State()) == P.ForCondition(tokens, old(State()))
    {
      var condition: Option<E.Expr> := None;
      var atSemicolon := Check(Semicolon);
      if !atSemicolon {
        condition :- Expression();
      }
      var _ :- Consume(Semicolon, P.ExpectSemicolonAfterLoopCondition);
      return Success(condition);
    }

    method ForIncrement() returns (r: Result<Option<E.Expr>, P.ParseError>)
      requires Valid()
      modifies this
      decreases |tokens| - current, 20
      ensures Valid()
      ensures Outcome(r, State()) == P.ForIncrement(tokens, old(State()))
    {
      var increment: Option<E.Expr> := None;
      var atParen := Check(RightParenthesis);
      if !atParen {
        increment :- Expression();
      }
      var _ :- Consume(RightParenthesis, P.ExpectParenAfterForClauses);
      return Success(increment);
    }

    method BreakStatement() returns (r: Result<S.Stmt, P.ParseError>)
      requires Valid() && current >= 1
      modifies this
      ensures Valid()
      ensures Outcome(r, State()) == P.BreakStatement(tokens, old(State()))
    {
      if loopDepth == 0 {
        var keyword := Previous();
        Error(keyword, P.BreakOutsideLoop);
      }
      var _ :- Consume(Semicolon, P.ExpectSemicolonAfterBreak);
      return Success(S.Break);
    }

    method IfStatement() returns (r: Result<S.Stmt, P.ParseError>)
      requires Valid()
      modifies this
      decreases |tokens| - current, 21
      ensures Valid()
      ensures Outcome(r, State()) == P.IfStatement(tokens, old(State()))
    {
      var _ :- Consume(LeftParenthesis, P.ExpectParenAfterIf);
      var condition :- Expression();
      var _ :- Consume(RightParenthesis, P.ExpectParenAfterIfCondition);
      var thenBranch :- Statement();
      var elseBranch :- ElseBranch();
      return Success(S.IfStatement(condition, thenBranch, elseBranch));
    }

    method ElseBranch() returns (r: Result<Option<S.Stmt>, P.ParseError>)
      requires Valid()
      modifies this
      decreases |tokens| - current, 20
      ensures Valid()
      ensures Outcome(r, State()) == P.ElseBranch(tokens, old(State()))
    {
      var hasElse := MatchAny([Else]);
      if hasElse {
        var branch :- Statement();
        return Success(Some(branch));
      }
      return Success(None);
    }

    method WhileStatement() returns (r: Result<S.Stmt, P.ParseError>)
      requires Valid()
      modifies this
      decreases |tokens| - current, 21
      ensures Valid()
      ensures Outcome(r, State()) == P.WhileStatement(tokens, old(State()))
    {
      var _ :- Consume(LeftParenthesis, P.ExpectParenAfterWhile);
      var condition :- Expression();
      var _ :- Consume(RightParenthesis, P.ExpectParenAfterCondition);
      var body :- LoopBody();
      return Success(S.While(condition, body));
    }

    /** The body of a loop, parsed one loop deeper; the depth is restored
        whether it parses or throws. */
    method LoopBody() returns (r: Result<S.Stmt, P.ParseError>)
      requires Valid()
      modifies this
      decreases |tokens| - current, 23
      ensures Valid()
      ensures Outcome(r, State()) == P.LoopBody(tokens, old(State()))
    {
      loopDepth := loopDepth + 1;
      assert State() == P.Deeper(old(State()));
      r := Statement();
      ghost var after := State();
      loopDepth := loopDepth - 1;
      assert State() == P.Shallower(after);
    }

    method Block() returns (r: Result<seq<Option<S.Stmt>>, P.ParseError>)
      requires Valid()
      modifies this
      decreases |tokens| - current, 28
      ensures Valid()
      ensures Outcome(r, State()) == P.Block(tokens, old(State()))
    {
      var statements: seq<Option<S.Stmt>> := [];
      var closing := Check(RightBrace);
      var atEnd := IsAtEnd();
      while !closing && !atEnd
        invariant Valid() && closing == P.Check(tokens, State(), RightBrace) && atEnd == P.IsAtEnd(tokens, State())
        invariant P.BlockLoop(tokens, State(), statements) == P.BlockLoop(tokens, old(State()), [])
        decreases |tokens| - current
      {
        var d := Declaration();
        statements := statements + [d];
        closing := Check(RightBrace);
        atEnd := IsAtEnd();
      }
      var _ :- Consume(RightBrace, P.ExpectBraceAfterBlock);
      return Success(statements);
    }

    method ExpressionStatement() returns (r: Result<S.Stmt, P.ParseError>)
      requires Valid()
      modifies this
      decreases |tokens| - current, 19
      ensures Valid()
      ensures Outcome(r, State()) == P.ExpressionStatement(tokens, old(State()))
    {
      var expression :- Expression();
      var _ :- Consume(Semicolon, P.ExpectAfterExpression);
      return Success(S.ExpressionStatement(expression));
    }

    // -------------------------------------------------------------------
    // Expressions

    method Expression() returns (r: Result<Option<E.Expr>, P.ParseError>)
      requires Valid()
      modifies this
      decreases |tokens| - current, 18
      ensures Valid()
      ensures Outcome(r, State()) == P.Expression(tokens, old(State()))
    {
      r := Assignment();
    }

    method Assignment() returns (r: Result<Option<E.Expr>, P.ParseError>)
      requires Valid()
      modifies this
      decreases |tokens| - current, 17
      ensures Valid()
      ensures Outcome(r, State()) == P.Assignment(tokens, old(State()))
    {
      var expr :- OrOperator();
      var assigns := MatchAny([Equal]);
      if !assigns {
        return Success(expr);
      }
      var equal := Previous();
      var value :- Assignment();
      if expr.Some? && expr.value.Variable? {
        var name := expr.value.name;
        return Success(Some(E.Assign(name, value)));
      }
      Error(equal, P.InvalidAssignmentTarget);
      return Success(expr);
    }

    method OrOperator() returns (r: Result<Option<E.Expr>, P.ParseError>)
      requires Valid()
      modifies this
      decreases |tokens| - current, 16
      ensures Valid()
      ensures Outcome(r, State()) == P.OrOperator(tokens, old(State()))
    {
      var expr :- AndOperator();
      ghost var before := State();
      var more := MatchAny([TokenType.Or]);
      while more
        invariant Valid() && P.Ready(tokens, before)
        invariant more == P.Matches(tokens, before, [TokenType.Or])
        invariant State() == if more then P.Advanced(tokens, before) else before
        invariant P.OrLoop(tokens, before, expr) == P.OrOperator(tokens, old(State()))
        decreases |tokens| - before.current
      {
        var operator := Previous();
        var right :- AndOperator();
        expr := Some(E.Logical(expr, operator, right));
        before := State();
        more := MatchAny([TokenType.Or]);
      }
      return Success(expr);
    }

    method AndOperator() returns (r: Result<Option<E.Expr>, P.ParseError>)
      requires Valid()
      modifies this
      decreases |tokens| - current, 14
      ensures Valid()
      ensures Outcome(r, State()) == P.AndOperator(tokens, old(State()))
    {
      var expr :- Equality();
      ghost var before := State();
      var more := MatchAny([TokenType.And]);
      while more
        invariant Valid() && P.Ready(tokens, before)
        invariant more == P.Matches(tokens, before, [TokenType.And])
        invariant State() == if more then P.Advanced(tokens, before) else before
        invariant P.AndLoop(tokens, before, expr) == P.AndOperator(tokens, old(State()))
        decreases |tokens| - before.current
      {
        var operator := Previous();
        var right :- Equality();
        expr := Some(E.Logical(expr, operator, right));
        before := State();
        more := MatchAny([TokenType.And]);
      }
      return Success(expr);
    }

    method Equality() returns (r: Result<Option<E.Expr>, P.ParseError>)
      requires Valid()
      modifies this
      decreases |tokens| - current, 12
      ensures Valid()
      ensures Outcome(r, State()) == P.Equality(tokens, old(State()))
    {
      var expression :- Comparison();
      ghost var before := State();
      var more := MatchAny([BangEqual, EqualEqual]);
      while more
        invariant Valid() && P.Ready(tokens, before)
        invariant more == P.Matches(tokens, before, [BangEqual, EqualEqual])
        invariant State() == if more then P.Advanced(tokens, before) else before
        invariant P.EqualityLoop(tokens, before, expression) == P.Equality(tokens, old(State()))
        decreases |tokens| - before.current
      {
        var operator := Previous();
        var right :- Comparison();
        expression := Some(E.Binary(expression, operator, right));
        before := State();
        more := MatchAny([BangEqual, EqualEqual]);
      }
      return Success(expression);
    }

    method Comparison() returns (r: Result<Option<E.Expr>, P.ParseError>)
      requires Valid()
      modifies this
      decreases |tokens| - current, 10
      ensures Valid()
      ensures Outcome(r, State()) == P.Comparison(tokens, old(State()))
    {
      var expression :- Term();
      var right :- Term();
      ghost var first := expression;
      ghost var start := State();
      ghost var before := State();
      var more := MatchAny([Greater, GreaterEqual, Less, LessEqual]);
      while more
        invariant Valid() && P.Ready(tokens, before)
        invariant more == P.Matches(tokens, before, [Greater, GreaterEqual, Less, LessEqual])
        invariant State() == if more then P.Advanced(tokens, before) else before
        invariant P.ComparisonLoop(tokens, before, expression, right) == P.ComparisonLoop(tokens, start, first, right)
        decreases |tokens| - before.current
      {
        var operator := Previous();
        expression := Some(E.Binary(expression, operator, right));
        before := State();
        more := MatchAny([Greater, GreaterEqual, Less, LessEqual]);
      }
      return Success(expression);
    }

    method Term() returns (r: Result<Option<E.Expr>, P.ParseError>)
      requires Valid()
      modifies this
      decreases |tokens| - current, 8
      ensures Valid()
      ensures Outcome(r, State()) == P.Term(tokens, old(State()))
    {
      var expression :- Factor();
      ghost var before := State();
      var more := MatchAny([Minus, Plus]);
      while more
        invariant Valid() && P.Ready(tokens, before)
        invariant more == P.Matches(tokens, before, [Minus, Plus])
        invariant State() == if more then P.Advanced(tokens, before) else before
        invariant P.TermLoop(tokens, before, expression) == P.Term(tokens, old(State()))
        decreases |tokens| - before.current
      {
        var operator := Previous();
        var right :- Factor();
        expression := Some(E.Binary(expression, operator, right));
        before := State();
        more := MatchAny([Minus, Plus]);
      }
      return Success(expression);
    }

    method Factor() returns (r: Result<Option<E.Expr>, P.ParseError>)
      requires Valid()
      modifies this
      decreases |tokens| - current, 6
      ensures Valid()
      ensures Outcome(r, State()) == P.Factor(tokens, old(State()))
    {
      var expression :- Unary();
      var right :- Unary();
      ghost var first := expression;
      ghost var start := State();
      ghost var before := State();
      var more := MatchAny([Slash, Star, Modulus]);
      while more
        invariant Valid() && P.Ready(tokens, before)
        invariant more == P.Matches(tokens, before, [Slash, Star, Modulus])
        invariant State() == if more then P.Advanced(tokens, before) else before
        invariant P.FactorLoop(tokens, before, expression, right) == P.FactorLoop(tokens, start, first, right)
        decreases |tokens| - before.current
      {
        var operator := Previous();
        expression := Some(E.Binary(expression, operator, right));
        before := State();
        more := MatchAny([Slash, Star, Modulus]);
      }
      return Success(expression);
    }

    /** The operand after `!` or `-` is parsed and dropped. */
    method Unary() returns (r: Result<Option<E.Expr>, P.ParseError>)
      requires Valid()
      modifies this
      decreases |tokens| - current, 4
      ensures Valid()
      ensures Outcome(r, State()) == P.Unary(tokens, old(State()))
    {
      var prefixed := MatchAny([Bang, Minus]);
      if !prefixed {
        r := Primary();
        return;
      }
      var _ := Previous();
      var right :- Unary();
      r := Primary();
    }

    method Primary() returns (r: Result<Option<E.Expr>, P.ParseError>)
      requires Valid()
      modifies this
      decreases |tokens| - current, 3
      ensures Valid()
      ensures Outcome(r, State()) == P.Primary(tokens, old(State()))
    {
      var m := MatchAny([False]);
      if m {
        return Success(Some(E.Literal(Boolean(false))));
      }
      m := MatchAny([True]);
      if m {
        return Success(Some(E.Literal(Boolean(true))));
      }
      m := MatchAny([Nil]);
      if m {
        return Success(Some(E.Literal(Null)));
      }
      m := MatchAny([TokenType.Number, String]);
      if m {
        var previous := Previous();
        return Success(Some(E.Literal(previous.literal)));
      }
      m := MatchAny([Identifier]);
      if m {
        var previous := Previous();
        return Success(Some(E.Variable(previous)));
      }
      m := MatchAny([LeftParenthesis]);
      if m {
        var expression :- Expression();
        var _ :- Consume(RightParenthesis, P.ExpectParenAfterExpression);
        return Success(Some(E.Grouping(expression)));
      }
      r := ErrorProduction();
    }

    method ErrorProduction() returns (r: Result<Option<E.Expr>, P.ParseError>)
      requires Valid()
      modifies this
      decreases |tokens| - current, 2
      ensures Valid()
      ensures Outcome(r, State()) == P.ErrorProduction(tokens, old(State()))
    {
      var m := MatchAny([BangEqual, EqualEqual]);
      if m {
        r := MissingOperand(P.EqualityLevel);
        return;
      }
      m := MatchAny([Greater, GreaterEqual, Less, LessEqual]);
      if m {
        r := MissingOperand(P.ComparisonLevel);
        return;
      }
      m := MatchAny([Plus]);
      if m {
        r := MissingOperand(P.TermLevel);
        return;
      }
      m := MatchAny([Slash, Star, Modulus]);
      if m {
        r := MissingOperand(P.FactorLevel);
        return;
      }
      return Failure(P.ParseError(P.ExpectExpression));
    }

    method MissingOperand(level: P.Level) returns (r: Result<Option<E.Expr>, P.ParseError>)
      requires Valid() && current >= 1
      modifies this
      decreases |tokens| - current, 13
      ensures Valid()
      ensures Outcome(r, State()) == P.MissingOperand(tokens, old(State()), level)
    {
      var operator := Previous();
      Error(operator, P.MissingLeftOperand);
      var operand: Result<Option<E.Expr>, P.ParseError>;
      match level {
        case EqualityLevel => operand := Equality();
        case ComparisonLevel => operand := Comparison();
        case TermLevel => operand := Term();
        case FactorLevel => operand := Factor();
      }
      var _ :- operand;
      return Success(None);
    }
  }
}

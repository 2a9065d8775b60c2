/** Properties of the reference parser: the cursor discipline, error
    recovery, the shapes each precedence level builds (including the
    anomalies of `Comparison`, `Factor` and `Unary`), assignment targets,
    the `for` desugaring, `break` and the loop depth, and the parameter
    cap. */
module ParseFacts {
  import opened Results
  import opened Tokens
  import opened Diagnostics
  import E = Expressions
  import S = Statements
  import opened ParseSpec

  // ---------------------------------------------------------------------
  // The cursor

  /** At `Eof` nothing matches and `Advance` stays put. */
  lemma CursorAtEof(ts: seq<Token>, s: ParseState, kind: TokenType, kinds: seq<TokenType>)
    requires Ready(ts, s) && IsAtEnd(ts, s)
    ensures !Check(ts, s, kind) && !Matches(ts, s, kinds) && Advanced(ts, s) == s
  {
  }

  /** `Check` never sees the end marker: it holds only for a kind other
      than `Eof`, and then exactly when the current token has that kind. */
  lemma CheckKind(ts: seq<Token>, s: ParseState, kind: TokenType)
    requires s.current < |ts|
    ensures Check(ts, s, kind) ==> kind != Eof && !IsAtEnd(ts, s)
    ensures kind != Eof ==> (Check(ts, s, kind) <==> ts[s.current].kind == kind)
  { }

  /** `Matches` holds exactly when `Check` holds for one of the kinds,
      the test the `Match` loop makes kind by kind. */
  lemma MatchesSomeCheck(ts: seq<Token>, s: ParseState, kinds: seq<TokenType>)
    requires s.current < |ts|
    ensures Matches(ts, s, kinds) <==> exists i :: 0 <= i < |kinds| && Check(ts, s, kinds[i])
  {
    if Matches(ts, s, kinds) {
      var i :| 0 <= i < |kinds| && kinds[i] == ts[s.current].kind;
      assert Check(ts, s, kinds[i]);
    }
  }

  /** `Error` records one report at the end of the list and moves neither
      the cursor nor the loop depth. */
  lemma ReportedAppends(s: ParseState, token: Token, message: string)
    ensures var t := Reported(s, token, message);
            && t.current == s.current && t.loopDepth == s.loopDepth
            && t.reports == s.reports + [TokenError(token, message)]
  { }

  /** Entering and leaving a loop body change only the loop depth, by one
      each way, and undo each other. */
  lemma DepthRestored(s: ParseState)
    ensures Deeper(s).loopDepth == s.loopDepth + 1 && Deeper(s).current == s.current && Deeper(s).reports == s.reports
    ensures Shallower(s).loopDepth == s.loopDepth - 1 && Shallower(s).current == s.current && Shallower(s).reports == s.reports
    ensures Shallower(Deeper(s)) == s && Deeper(Shallower(s)) == s
  { }

  /** `Consume` takes the current token exactly when it has the kind, and
      reports nothing either way. */
  lemma ConsumeOutcome(ts: seq<Token>, s: ParseState, kind: TokenType, message: string)
    requires Ready(ts, s)
    ensures var r := Consume(ts, s, kind, message);
            && (r.Ok? <==> Check(ts, s, kind))
            && (r.Ok? ==> r.value == ts[s.current] && r.value.kind == kind && r.st == s.(current := s.current + 1))
            && (r.Err? ==> r.error == ParseError(message) && r.st == s)
  {
  }

  // ---------------------------------------------------------------------
  // Error recovery

  /** A position `Synchronize` may stop at: `Eof`, the token after a ';',
      or a token that starts a statement. */
  predicate SyncPoint(ts: seq<Token>, p: nat)
    requires 1 <= p < |ts|
  {
    ts[p].kind == Eof || ts[p - 1].kind == Semicolon || ts[p].kind in StatementStarts
  }

  /** The loop of `Synchronize` stops at the first synchronisation point
      at or after the cursor, and changes nothing else. */
  lemma {:induction false} SynchronizeLoopStops(ts: seq<Token>, s: ParseState)
    requires Ready(ts, s) && s.current >= 1
    ensures var t := SynchronizeLoop(ts, s);
            && SyncPoint(ts, t.current)
            && (forall p :: s.current <= p < t.current ==> !SyncPoint(ts, p))
            && t == s.(current := t.current)
    decreases |ts| - s.current
  {
    if !SyncPoint(ts, s.current) {
      SynchronizeLoopStops(ts, Advanced(ts, s));
    }
  }

  /** `Synchronize` skips the offending token and stops at the first
      synchronisation point after it; it reports nothing. */
  lemma SynchronizeStops(ts: seq<Token>, s: ParseState)
    requires Ready(ts, s) && (!IsAtEnd(ts, s) || s.current >= 1)
    ensures var t := Synchronize(ts, s);
            && t.current >= 1 && SyncPoint(ts, t.current)
            && (forall p :: s.current < p < t.current ==> !SyncPoint(ts, p))
            && t == s.(current := t.current)
  {
    SynchronizeLoopStops(ts, Advanced(ts, s));
  }

  /** A declaration that fails yields a null entry and leaves the cursor at
      a synchronisation point. */
  lemma DeclarationRecovers(ts: seq<Token>, s: ParseState)
    requires Ready(ts, s) && (!IsAtEnd(ts, s) || s.current >= 1)
    ensures var (d, t) := Declaration(ts, s);
            d.None? ==> t.current >= 1 && SyncPoint(ts, t.current)
  {
    var attempt :=
      if Matches(ts, s, [Var]) then VarDeclaration(ts, Advanced(ts, s))
      else if Matches(ts, s, [Fun]) then Function(ts, Advanced(ts, s), "function")
      else Statement(ts, s);
    if attempt.Err? {
      SynchronizeStops(ts, attempt.st);
    }
  }

  /** The loop of `Parse` keeps the entries it was given and adds at most
      one entry per token it moves past. */
  lemma {:induction false} ParseLoopCollects(ts: seq<Token>, s: ParseState, done: seq<Option<S.Stmt>>)
    requires Ready(ts, s)
    ensures var (entries, t) := ParseLoop(ts, s, done);
            && |done| <= |entries| && entries[..|done|] == done
            && |entries| - |done| <= t.current - s.current
    decreases |ts| - s.current
  {
    if !IsAtEnd(ts, s) {
      var (d, s1) := Declaration(ts, s);
      ParseLoopCollects(ts, s1, done + [d]);
      var entries := ParseLoop(ts, s1, done + [d]).0;
      assert entries[..|done|] == (done + [d])[..|done|];
    }
  }

  /** `Parse` ends at `Eof` with at most one entry per token before it. */
  lemma ParseEntries(ts: seq<Token>, s: ParseState)
    requires Ready(ts, s)
    ensures var (entries, t) := Parse(ts, s);
            IsAtEnd(ts, t) && |entries| <= t.current - s.current
  {
    ParseLoopCollects(ts, s, []);
  }

  // ---------------------------------------------------------------------
  // `break` and the loop depth

  /** `break` is reported exactly when the loop depth is zero, at the
      `break` token, and `;` is required either way. */
  lemma BreakReports(ts: seq<Token>, s: ParseState)
    requires Ready(ts, s) && s.current >= 1
    ensures var r := BreakStatement(ts, s);
            && (r.Ok? <==> Check(ts, s, Semicolon))
            && (r.Ok? ==> r.value == S.Break)
            && (s.loopDepth == 0 ==> r.st.reports == s.reports + [TokenError(ts[s.current - 1], BreakOutsideLoop)])
            && (s.loopDepth != 0 ==> r.st.reports == s.reports)
  {
  }

  /** `Statement` at a `break` token dispatches to `BreakStatement`. */
  lemma StatementAtBreak(ts: seq<Token>, s: ParseState)
    requires Ready(ts, s) && ts[s.current].kind == TokenType.Break
    ensures Statement(ts, s) == BreakStatement(ts, Advanced(ts, s))
  {
    assert !Matches(ts, s, [For]) && Matches(ts, s, [TokenType.Break]);
  }

  /** `break;` parses to `Break`, one report or none depending on the
      loop depth. */
  lemma BreakSemicolon(ts: seq<Token>, s: ParseState)
    requires Ready(ts, s) && s.current >= 1 && ts[s.current].kind == Semicolon
    ensures var s1 := if s.loopDepth == 0 then Reported(s, ts[s.current - 1], BreakOutsideLoop) else s;
            BreakStatement(ts, s) == Ok(S.Break, s1.(current := s.current + 1))
  {
  }

  /** The statement `break;`: reported at `break` exactly when the loop
      depth is zero. */
  lemma BreakAt(ts: seq<Token>, s: ParseState)
    requires Ready(ts, s) && s.current + 1 < |ts|
    requires ts[s.current].kind == TokenType.Break && ts[s.current + 1].kind == Semicolon
    ensures var s1 := if s.loopDepth == 0 then Reported(s, ts[s.current], BreakOutsideLoop) else s;
            Statement(ts, s) == Ok(S.Break, s1.(current := s.current + 2))
  {
    StatementAtBreak(ts, s);
    BreakSemicolon(ts, Advanced(ts, s));
  }

  /** A loop body is parsed one level deeper: a `break;` as the body of a
      loop written at the top level is not reported. */
  lemma BreakInLoopBody(ts: seq<Token>, s: ParseState)
    requires Ready(ts, s) && s.current + 1 < |ts| && s.loopDepth == 0
    requires ts[s.current].kind == TokenType.Break && ts[s.current + 1].kind == Semicolon
    ensures LoopBody(ts, s) == Ok(S.Break, s.(current := s.current + 2))
  {
    var d := Deeper(s);
    BreakAt(ts, d);
    var r := Statement(ts, d);
    assert r.Ok? && Shallower(r.st) == s.(current := s.current + 2);
  }

  /** The same `break;` outside any loop is reported once, at `break`. */
  lemma BreakOutsideLoopReported(ts: seq<Token>, s: ParseState)
    requires Ready(ts, s) && s.current + 1 < |ts| && s.loopDepth == 0
    requires ts[s.current].kind == TokenType.Break && ts[s.current + 1].kind == Semicolon
    ensures Statement(ts, s)
            == Ok(S.Break, ParseState(s.current + 2, 0, s.reports + [TokenError(ts[s.current], BreakOutsideLoop)]))
  {
    BreakAt(ts, s);
  }

  // ---------------------------------------------------------------------
  // Parameters

  /** How many of the parameters numbered `low` to `high - 1` (0-based) lie
      beyond the cap and are reported. */
  function Excess(low: nat, high: nat): nat {
    if high <= low then 0
    else if high <= MaxParameters then 0
    else if low >= MaxParameters then high - low
    else high - MaxParameters
  }

  /** Every report from position `low` on is the too-many-parameters
      report. */
  predicate CapReportsSince(reports: seq<Report>, low: nat) {
    forall k :: low <= k < |reports| ==> reports[k].message == TooManyParameters
  }

  lemma CapReportsJoin(a: seq<Report>, b: seq<Report>, low: nat)
    requires a <= b && CapReportsSince(a, low) && CapReportsSince(b, |a|)
    ensures CapReportsSince(b, low)
  {
    forall k | low <= k < |b| ensures b[k].message == TooManyParameters {
      if k < |a| {
        assert b[k] == a[k];
      }
    }
  }

  /** Every report the parameter loop makes is the too-many-parameters
      report, whether it succeeds or throws. */
  lemma {:induction false} ParametersReports(ts: seq<Token>, s: ParseState, done: seq<Token>)
    requires Ready(ts, s)
    ensures CapReportsSince(Parameters(ts, s, done).st.reports, |s.reports|)
    decreases |ts| - s.current
  {
    var s1 := if |done| >= MaxParameters then Reported(s, ts[s.current], TooManyParameters) else s;
    var c := Consume(ts, s1, Identifier, ExpectParameterName);
    var r := Parameters(ts, s, done);
    assert CapReportsSince(s1.reports, |s.reports|);
    if c.Ok? && Matches(ts, c.st, [Comma]) {
      var next := Advanced(ts, c.st);
      ParametersReports(ts, next, done + [c.value]);
      assert r == Parameters(ts, next, done + [c.value]) && next.reports == s1.reports;
      CapReportsJoin(s1.reports, r.st.reports, |s.reports|);
    } else {
      assert r.st.reports == s1.reports;
    }
  }

  /** The parameters past the cap, counted one parameter at a time. */
  lemma ExcessStep(low: nat, high: nat)
    requires low < high
    ensures Excess(low, high) == (if low >= MaxParameters then 1 else 0) + Excess(low + 1, high)
  { }

  /** The parameter loop keeps the names gathered so far and appends at
      least one more, each of them an identifier. */
  lemma {:induction false} ParametersKept(ts: seq<Token>, s: ParseState, done: seq<Token>)
    requires Ready(ts, s)
    ensures var r := Parameters(ts, s, done);
            r.Ok? ==>
              && |done| < |r.value| && r.value[..|done|] == done
              && (forall i :: |done| <= i < |r.value| ==> r.value[i].kind == Identifier)
    decreases |ts| - s.current
  {
    var s1 := if |done| >= MaxParameters then Reported(s, ts[s.current], TooManyParameters) else s;
    ConsumeOutcome(ts, s1, Identifier, ExpectParameterName);
    var c := Consume(ts, s1, Identifier, ExpectParameterName);
    if c.Ok? && Matches(ts, c.st, [Comma]) {
      var rest := done + [c.value];
      ParametersKept(ts, Advanced(ts, c.st), rest);
      var r := Parameters(ts, Advanced(ts, c.st), rest);
      if r.Ok? {
        assert r.value[..|done|] == rest[..|done|];
        assert r.value[|done|] == rest[|done|];
      }
    }
  }

  /** The parameter loop reports once for each parameter past the cap,
      counting from the `|done|` names gathered so far. */
  lemma {:induction false} ParametersPastCap(ts: seq<Token>, s: ParseState, done: seq<Token>)
    requires Ready(ts, s)
    ensures var r := Parameters(ts, s, done);
            r.Ok? ==> |done| < |r.value| && |r.st.reports| == |s.reports| + Excess(|done|, |r.value|)
    decreases |ts| - s.current
  {
    var s1 := if |done| >= MaxParameters then Reported(s, ts[s.current], TooManyParameters) else s;
    assert |s1.reports| == |s.reports| + (if |done| >= MaxParameters then 1 else 0);
    var c := Consume(ts, s1, Identifier, ExpectParameterName);
    if c.Ok? {
      assert c.st == s1.(current := s1.current + 1);
      var rest := done + [c.value];
      if Matches(ts, c.st, [Comma]) {
        ParametersPastCap(ts, Advanced(ts, c.st), rest);
        var r := Parameters(ts, Advanced(ts, c.st), rest);
        if r.Ok? {
          ExcessStep(|done|, |r.value|);
        }
      }
    }
  }

  /** A function's parameter list from `(`: with `n` parameters, the last
      `n - 32` of them are each reported once and all `n` are kept. */
  lemma ParameterCap(ts: seq<Token>, s: ParseState)
    requires Ready(ts, s) && !Check(ts, s, RightParenthesis)
    ensures var r := Parameters(ts, s, []);
            r.Ok? ==> |r.st.reports| == |s.reports| + (if |r.value| > MaxParameters then |r.value| - MaxParameters else 0)
  {
    ParametersPastCap(ts, s, []);
  }

  // ---------------------------------------------------------------------
  // A binary operator with no left operand

  /** The binary operators `Primary` accepts without a left operand. */
  const OperatorKinds: seq<TokenType> :=
    [BangEqual, EqualEqual, Greater, GreaterEqual, Less, LessEqual, Plus, Slash, Star, Modulus]

  /** After an operator with no left operand: the report at the operator
      comes first, and the result, if any, is null. */
  lemma MissingOperandReports(ts: seq<Token>, s: ParseState, level: Level)
    requires Ready(ts, s) && s.current >= 1
    ensures var r := MissingOperand(ts, s, level);
            && (r.Ok? ==> r.value.None?)
            && |s.reports| < |r.st.reports|
            && r.st.reports[|s.reports|] == TokenError(ts[s.current - 1], MissingLeftOperand)
  {
    var s1 := Reported(s, ts[s.current - 1], MissingLeftOperand);
    assert s1.reports[|s.reports|] == TokenError(ts[s.current - 1], MissingLeftOperand);
  }

  /** A binary operator with no left operand is reported at the operator
      before anything else, and the result, if any, is null; any other
      token that starts no primary expression throws right there. */
  lemma ErrorProductionReports(ts: seq<Token>, s: ParseState)
    requires Ready(ts, s)
    ensures var r := ErrorProduction(ts, s);
            && (Matches(ts, s, OperatorKinds) ==>
                  && (r.Ok? ==> r.value.None?)
                  && |s.reports| < |r.st.reports|
                  && r.st.reports[|s.reports|] == TokenError(ts[s.current], MissingLeftOperand))
            && (!Matches(ts, s, OperatorKinds) ==> r == Err(ParseError(ExpectExpression), s))
  {
    if Matches(ts, s, OperatorKinds) {
      var level :=
        if Matches(ts, s, [BangEqual, EqualEqual]) then EqualityLevel
        else if Matches(ts, s, [Greater, GreaterEqual, Less, LessEqual]) then ComparisonLevel
        else if Matches(ts, s, [Plus]) then TermLevel
        else FactorLevel;
      assert ErrorProduction(ts, s) == MissingOperand(ts, Advanced(ts, s), level);
      MissingOperandReports(ts, Advanced(ts, s), level);
    }
  }

  // ---------------------------------------------------------------------
  // The shapes each precedence level builds

  /** What `Primary` can return: null, a literal, a variable or a
      grouping. */
  predicate PrimaryShape(x: Option<E.Expr>) {
    x.None? || x.value.Literal? || x.value.Variable? || x.value.Grouping?
  }

  /** What the binary levels can return: a primary shape, or a binary or
      logical node. */
  predicate OperatorShape(x: Option<E.Expr>) {
    PrimaryShape(x) || x.value.Binary? || x.value.Logical?
  }

  /** What the levels below `and` can return: a primary shape or a binary
      node, never a logical one. */
  predicate BinaryShape(x: Option<E.Expr>) {
    PrimaryShape(x) || x.value.Binary?
  }

  /** A loop result: `start` wrapped, as the left operand all the way down,
      in `Logical` nodes (when `logical`) or in `Binary` nodes. */
  predicate Wraps(x: Option<E.Expr>, start: Option<E.Expr>, logical: bool)
    decreases x
  {
    x == start
    || (x.Some? && (if logical then x.value.Logical? else x.value.Binary?) && Wraps(x.value.left, start, logical))
  }

  /** The node a loop step of kind `logical` builds. */
  function Node(left: Option<E.Expr>, op: Token, right: Option<E.Expr>, logical: bool): Option<E.Expr> {
    if logical then Some(E.Logical(left, op, right)) else Some(E.Binary(left, op, right))
  }

  /** A chain wrapping one more node wraps that node's left operand. */
  lemma {:induction false} WrapsOnTop(x: Option<E.Expr>, start: Option<E.Expr>, op: Token, right: Option<E.Expr>, logical: bool)
    requires Wraps(x, Node(start, op, right, logical), logical)
    ensures Wraps(x, start, logical)
    decreases x
  {
    if x != Node(start, op, right, logical) {
      WrapsOnTop(x.value.left, start, op, right, logical);
    }
  }

  lemma PrimaryShapes(ts: seq<Token>, s: ParseState)
    requires Ready(ts, s)
    ensures Primary(ts, s).Ok? ==> PrimaryShape(Primary(ts, s).value)
  {
    ErrorProductionReports(ts, s);
  }

  /** `Unary` never builds a `Unary` node: after `!` or `-` the operand is
      parsed and dropped, and what is returned is the following primary. */
  lemma UnaryNeverBuildsUnary(ts: seq<Token>, s: ParseState)
    requires Ready(ts, s)
    ensures var r := Unary(ts, s);
            r.Ok? ==> PrimaryShape(r.value) && (r.value.None? || !r.value.value.Unary?)
  {
    if Matches(ts, s, [Bang, Minus]) {
      var operand := Unary(ts, Advanced(ts, s));
      if operand.Ok? {
        PrimaryShapes(ts, operand.st);
      }
    } else {
      PrimaryShapes(ts, s);
    }
  }

  /** The `or` loop only wraps the expression so far, as the left
      operand, in `Logical` nodes. */
  lemma {:induction false} OrLoopWraps(ts: seq<Token>, s: ParseState, expr: Option<E.Expr>)
    requires Ready(ts, s)
    ensures OrLoop(ts, s, expr).Ok? ==> Wraps(OrLoop(ts, s, expr).value, expr, true)
    decreases |ts| - s.current
  {
    if Matches(ts, s, [TokenType.Or]) {
      var right := AndOperator(ts, Advanced(ts, s));
      if right.Ok? {
        var next := Node(expr, ts[s.current], right.value, true);
        OrLoopWraps(ts, right.st, next);
        if OrLoop(ts, right.st, next).Ok? {
          WrapsOnTop(OrLoop(ts, right.st, next).value, expr, ts[s.current], right.value, true);
        }
      }
    }
  }

  /** The `and` loop only wraps the expression so far, as the left
      operand, in `Logical` nodes. */
  lemma {:induction false} AndLoopWraps(ts: seq<Token>, s: ParseState, expr: Option<E.Expr>)
    requires Ready(ts, s)
    ensures AndLoop(ts, s, expr).Ok? ==> Wraps(AndLoop(ts, s, expr).value, expr, true)
    decreases |ts| - s.current
  {
    if Matches(ts, s, [TokenType.And]) {
      var right := Equality(ts, Advanced(ts, s));
      if right.Ok? {
        var next := Node(expr, ts[s.current], right.value, true);
        AndLoopWraps(ts, right.st, next);
        if AndLoop(ts, right.st, next).Ok? {
          WrapsOnTop(AndLoop(ts, right.st, next).value, expr, ts[s.current], right.value, true);
        }
      }
    }
  }

  /** The equality loop only wraps the expression so far, as the left
      operand, in `Binary` nodes. */
  lemma {:induction false} EqualityLoopWraps(ts: seq<Token>, s: ParseState, expr: Option<E.Expr>)
    requires Ready(ts, s)
    ensures EqualityLoop(ts, s, expr).Ok? ==> Wraps(EqualityLoop(ts, s, expr).value, expr, false)
    decreases |ts| - s.current
  {
    if Matches(ts, s, [BangEqual, EqualEqual]) {
      var right := Comparison(ts, Advanced(ts, s));
      if right.Ok? {
        var next := Node(expr, ts[s.current], right.value, false);
        EqualityLoopWraps(ts, right.st, next);
        if EqualityLoop(ts, right.st, next).Ok? {
          WrapsOnTop(EqualityLoop(ts, right.st, next).value, expr, ts[s.current], right.value, false);
        }
      }
    }
  }

  /** The term loop only wraps the expression so far, as the left
      operand, in `Binary` nodes. */
  lemma {:induction false} TermLoopWraps(ts: seq<Token>, s: ParseState, expr: Option<E.Expr>)
    requires Ready(ts, s)
    ensures TermLoop(ts, s, expr).Ok? ==> Wraps(TermLoop(ts, s, expr).value, expr, false)
    decreases |ts| - s.current
  {
    if Matches(ts, s, [Minus, Plus]) {
      var right := Factor(ts, Advanced(ts, s));
      if right.Ok? {
        var next := Node(expr, ts[s.current], right.value, false);
        TermLoopWraps(ts, right.st, next);
        if TermLoop(ts, right.st, next).Ok? {
          WrapsOnTop(TermLoop(ts, right.st, next).value, expr, ts[s.current], right.value, false);
        }
      }
    }
  }

  /** The result of the loops of `Comparison` and `Factor`: `start` wrapped
      in binary nodes whose right operand is always `right`. */
  predicate SameRight(x: Option<E.Expr>, start: Option<E.Expr>, right: Option<E.Expr>)
    decreases x
  {
    x == start || (x.Some? && x.value.Binary? && x.value.right == right && SameRight(x.value.left, start, right))
  }

  lemma {:induction false} ComparisonLoopReusesRight(ts: seq<Token>, s: ParseState, expr: Option<E.Expr>, right: Option<E.Expr>)
    requires Ready(ts, s)
    ensures SameRight(ComparisonLoop(ts, s, expr, right).0, expr, right)
    decreases |ts| - s.current
  {
    if Matches(ts, s, [Greater, GreaterEqual, Less, LessEqual]) {
      var next := Some(E.Binary(expr, ts[s.current], right));
      ComparisonLoopReusesRight(ts, Advanced(ts, s), next, right);
      SameRightOnTop(ComparisonLoop(ts, Advanced(ts, s), next, right).0, expr, ts[s.current], right);
    }
  }

  lemma {:induction false} FactorLoopReusesRight(ts: seq<Token>, s: ParseState, expr: Option<E.Expr>, right: Option<E.Expr>)
    requires Ready(ts, s)
    ensures SameRight(FactorLoop(ts, s, expr, right).0, expr, right)
    decreases |ts| - s.current
  {
    if Matches(ts, s, [Slash, Star, Modulus]) {
      var next := Some(E.Binary(expr, ts[s.current], right));
      FactorLoopReusesRight(ts, Advanced(ts, s), next, right);
      SameRightOnTop(FactorLoop(ts, Advanced(ts, s), next, right).0, expr, ts[s.current], right);
    }
  }

  /** A `SameRight` chain over one more node is a chain over the node's
      left operand. */
  lemma {:induction false} SameRightOnTop(x: Option<E.Expr>, start: Option<E.Expr>, op: Token, right: Option<E.Expr>)
    requires SameRight(x, Some(E.Binary(start, op, right)), right)
    ensures SameRight(x, start, right)
    decreases x
  {
    if x != Some(E.Binary(start, op, right)) {
      SameRightOnTop(x.value.left, start, op, right);
    }
  }

  /** A `SameRight` chain wraps its start, as the left operand, in
      `Binary` nodes. */
  lemma {:induction false} SameRightWraps(x: Option<E.Expr>, start: Option<E.Expr>, right: Option<E.Expr>)
    requires SameRight(x, start, right)
    ensures Wraps(x, start, false)
    decreases x
  {
    if x != start {
      SameRightWraps(x.value.left, start, right);
    }
  }

  /** `Comparison` parses two operands before looking for an operator; the
      first is at the bottom of the result and the second is the right
      operand of every comparison built. */
  lemma ComparisonReusesRight(ts: seq<Token>, s: ParseState)
    requires Ready(ts, s)
    ensures var first := Term(ts, s);
            first.Ok? && Term(ts, first.st).Ok? ==>
              var second := Term(ts, first.st);
              Comparison(ts, s).Ok? && SameRight(Comparison(ts, s).value, first.value, second.value)
  {
    var first := Term(ts, s);
    if first.Ok? && Term(ts, first.st).Ok? {
      var second := Term(ts, first.st);
      ComparisonLoopReusesRight(ts, second.st, first.value, second.value);
    }
  }

  /** `Factor`, likewise: two operands up front, the second reused. */
  lemma FactorReusesRight(ts: seq<Token>, s: ParseState)
    requires Ready(ts, s)
    ensures var first := Unary(ts, s);
            first.Ok? && Unary(ts, first.st).Ok? ==>
              var second := Unary(ts, first.st);
              Factor(ts, s).Ok? && SameRight(Factor(ts, s).value, first.value, second.value)
  {
    var first := Unary(ts, s);
    if first.Ok? && Unary(ts, first.st).Ok? {
      var second := Unary(ts, first.st);
      FactorLoopReusesRight(ts, second.st, first.value, second.value);
    }
  }

  lemma FactorShapes(ts: seq<Token>, s: ParseState)
    requires Ready(ts, s)
    ensures Factor(ts, s).Ok? ==> BinaryShape(Factor(ts, s).value)
  {
    UnaryNeverBuildsUnary(ts, s);
    FactorReusesRight(ts, s);
    var first := Unary(ts, s);
    if first.Ok? && Unary(ts, first.st).Ok? {
      SameRightWraps(Factor(ts, s).value, first.value, Unary(ts, first.st).value);
    }
  }

  lemma TermShapes(ts: seq<Token>, s: ParseState)
    requires Ready(ts, s)
    ensures Term(ts, s).Ok? ==> BinaryShape(Term(ts, s).value)
  {
    FactorShapes(ts, s);
    var first := Factor(ts, s);
    if first.Ok? {
      TermLoopWraps(ts, first.st, first.value);
    }
  }

  lemma ComparisonShapes(ts: seq<Token>, s: ParseState)
    requires Ready(ts, s)
    ensures Comparison(ts, s).Ok? ==> BinaryShape(Comparison(ts, s).value)
  {
    TermShapes(ts, s);
    ComparisonReusesRight(ts, s);
    var first := Term(ts, s);
    if first.Ok? && Term(ts, first.st).Ok? {
      SameRightWraps(Comparison(ts, s).value, first.value, Term(ts, first.st).value);
    }
  }

  lemma EqualityShapes(ts: seq<Token>, s: ParseState)
    requires Ready(ts, s)
    ensures Equality(ts, s).Ok? ==> BinaryShape(Equality(ts, s).value)
  {
    ComparisonShapes(ts, s);
    var first := Comparison(ts, s);
    if first.Ok? {
      EqualityLoopWraps(ts, first.st, first.value);
    }
  }

  lemma AndShapes(ts: seq<Token>, s: ParseState)
    requires Ready(ts, s)
    ensures AndOperator(ts, s).Ok? ==> OperatorShape(AndOperator(ts, s).value)
  {
    EqualityShapes(ts, s);
    var first := Equality(ts, s);
    if first.Ok? {
      AndLoopWraps(ts, first.st, first.value);
    }
  }

  /** Below `Assignment` no level returns an `Assign` at the top. */
  lemma OrShapes(ts: seq<Token>, s: ParseState)
    requires Ready(ts, s)
    ensures OrOperator(ts, s).Ok? ==> OperatorShape(OrOperator(ts, s).value)
  {
    AndShapes(ts, s);
    var first := AndOperator(ts, s);
    if first.Ok? {
      OrLoopWraps(ts, first.st, first.value);
    }
  }

  // ---------------------------------------------------------------------
  // Assignment

  /** `Assignment` builds an `Assign` exactly when the left side is a
      variable followed by '=' and the right side parses; the assigned
      name is the variable's and the value is the right side, itself
      parsed as an assignment (so `a = b = c` nests to the right). */
  lemma AssignOnlyToVariable(ts: seq<Token>, s: ParseState)
    requires Ready(ts, s)
    ensures var r, left := Assignment(ts, s), OrOperator(ts, s);
            (r.Ok? && r.value.Some? && r.value.value.Assign?)
            <==> (&& left.Ok? && left.value.Some? && left.value.value.Variable?
                  && Matches(ts, left.st, [Equal]) && Assignment(ts, Advanced(ts, left.st)).Ok?)
    ensures var r, left := Assignment(ts, s), OrOperator(ts, s);
            r.Ok? && r.value.Some? && r.value.value.Assign? ==>
              && r.value.value.name == left.value.value.name
              && r.value.value.rvalue == Assignment(ts, Advanced(ts, left.st)).value
  {
    OrShapes(ts, s);
  }

  /** With any other left side, '=' and the right side are consumed, the
      '=' is reported last, and the left side is returned unchanged. */
  lemma InvalidTargetReported(ts: seq<Token>, s: ParseState)
    requires Ready(ts, s)
    ensures var left := OrOperator(ts, s);
            left.Ok? && !(left.value.Some? && left.value.value.Variable?)
            && Matches(ts, left.st, [Equal]) && Assignment(ts, Advanced(ts, left.st)).Ok? ==>
              var rhs := Assignment(ts, Advanced(ts, left.st));
              Assignment(ts, s)
              == Ok(left.value, rhs.st.(reports := rhs.st.reports + [TokenError(ts[left.st.current], InvalidAssignmentTarget)]))
  {
  }

  // ---------------------------------------------------------------------
  // Left associativity

  /** `a or b or c` groups as `(a or b) or c`. */
  lemma OrGroupsLeft(ts: seq<Token>, s: ParseState)
    requires Ready(ts, s)
    ensures var a := AndOperator(ts, s);
            a.Ok? && Matches(ts, a.st, [TokenType.Or]) && AndOperator(ts, Advanced(ts, a.st)).Ok? ==>
              var b := AndOperator(ts, Advanced(ts, a.st));
              Matches(ts, b.st, [TokenType.Or]) && AndOperator(ts, Advanced(ts, b.st)).Ok? ==>
                var c := AndOperator(ts, Advanced(ts, b.st));
                !Matches(ts, c.st, [TokenType.Or]) ==>
                  OrOperator(ts, s)
                  == Ok(Some(E.Logical(Some(E.Logical(a.value, ts[a.st.current], b.value)), ts[b.st.current], c.value)), c.st)
  {
    var a := AndOperator(ts, s);
    if a.Ok? && Matches(ts, a.st, [TokenType.Or]) && AndOperator(ts, Advanced(ts, a.st)).Ok? {
      var b := AndOperator(ts, Advanced(ts, a.st));
      if Matches(ts, b.st, [TokenType.Or]) && AndOperator(ts, Advanced(ts, b.st)).Ok? {
        var c := AndOperator(ts, Advanced(ts, b.st));
        var ab := Some(E.Logical(a.value, ts[a.st.current], b.value));
        assert OrLoop(ts, a.st, a.value) == OrLoop(ts, b.st, ab);
        assert OrLoop(ts, b.st, ab) == OrLoop(ts, c.st, Some(E.Logical(ab, ts[b.st.current], c.value)));
      }
    }
  }
  /** `a and b and c` groups as `(a and b) and c`. */
  lemma AndGroupsLeft(ts: seq<Token>, s: ParseState)
    requires Ready(ts, s)
    ensures var a := Equality(ts, s);
            a.Ok? && Matches(ts, a.st, [TokenType.And]) && Equality(ts, Advanced(ts, a.st)).Ok? ==>
              var b := Equality(ts, Advanced(ts, a.st));
              Matches(ts, b.st, [TokenType.And]) && Equality(ts, Advanced(ts, b.st)).Ok? ==>
                var c := Equality(ts, Advanced(ts, b.st));
                !Matches(ts, c.st, [TokenType.And]) ==>
                  AndOperator(ts, s)
                  == Ok(Some(E.Logical(Some(E.Logical(a.value, ts[a.st.current], b.value)), ts[b.st.current], c.value)), c.st)
  {
    var a := Equality(ts, s);
    if a.Ok? && Matches(ts, a.st, [TokenType.And]) && Equality(ts, Advanced(ts, a.st)).Ok? {
      var b := Equality(ts, Advanced(ts, a.st));
      if Matches(ts, b.st, [TokenType.And]) && Equality(ts, Advanced(ts, b.st)).Ok? {
        var c := Equality(ts, Advanced(ts, b.st));
        var ab := Some(E.Logical(a.value, ts[a.st.current], b.value));
        assert AndLoop(ts, a.st, a.value) == AndLoop(ts, b.st, ab);
        assert AndLoop(ts, b.st, ab) == AndLoop(ts, c.st, Some(E.Logical(ab, ts[b.st.current], c.value)));
      }
    }
  }
  /** `a == b != c` groups as `(a == b) != c`. */
  lemma EqualityGroupsLeft(ts: seq<Token>, s: ParseState)
    requires Ready(ts, s)
    ensures var a := Comparison(ts, s);
            a.Ok? && Matches(ts, a.st, [BangEqual, EqualEqual]) && Comparison(ts, Advanced(ts, a.st)).Ok? ==>
              var b := Comparison(ts, Advanced(ts, a.st));
              Matches(ts, b.st, [BangEqual, EqualEqual]) && Comparison(ts, Advanced(ts, b.st)).Ok? ==>
                var c := Comparison(ts, Advanced(ts, b.st));
                !Matches(ts, c.st, [BangEqual, EqualEqual]) ==>
                  Equality(ts, s)
                  == Ok(Some(E.Binary(Some(E.Binary(a.value, ts[a.st.current], b.value)), ts[b.st.current], c.value)), c.st)
  {
    var a := Comparison(ts, s);
    if a.Ok? && Matches(ts, a.st, [BangEqual, EqualEqual]) && Comparison(ts, Advanced(ts, a.st)).Ok? {
      var b := Comparison(ts, Advanced(ts, a.st));
      if Matches(ts, b.st, [BangEqual, EqualEqual]) && Comparison(ts, Advanced(ts, b.st)).Ok? {
        var c := Comparison(ts, Advanced(ts, b.st));
        var ab := Some(E.Binary(a.value, ts[a.st.current], b.value));
        assert EqualityLoop(ts, a.st, a.value) == EqualityLoop(ts, b.st, ab);
        assert EqualityLoop(ts, b.st, ab) == EqualityLoop(ts, c.st, Some(E.Binary(ab, ts[b.st.current], c.value)));
      }
    }
  }
  /** `a - b + c` groups as `(a - b) + c`. */
  lemma TermGroupsLeft(ts: seq<Token>, s: ParseState)
    requires Ready(ts, s)
    ensures var a := Factor(ts, s);
            a.Ok? && Matches(ts, a.st, [Minus, Plus]) && Factor(ts, Advanced(ts, a.st)).Ok? ==>
              var b := Factor(ts, Advanced(ts, a.st));
              Matches(ts, b.st, [Minus, Plus]) && Factor(ts, Advanced(ts, b.st)).Ok? ==>
                var c := Factor(ts, Advanced(ts, b.st));
                !Matches(ts, c.st, [Minus, Plus]) ==>
                  Term(ts, s)
                  == Ok(Some(E.Binary(Some(E.Binary(a.value, ts[a.st.current], b.value)), ts[b.st.current], c.value)), c.st)
  {
    var a := Factor(ts, s);
    if a.Ok? && Matches(ts, a.st, [Minus, Plus]) && Factor(ts, Advanced(ts, a.st)).Ok? {
      var b := Factor(ts, Advanced(ts, a.st));
      if Matches(ts, b.st, [Minus, Plus]) && Factor(ts, Advanced(ts, b.st)).Ok? {
        var c := Factor(ts, Advanced(ts, b.st));
        var ab := Some(E.Binary(a.value, ts[a.st.current], b.value));
        assert TermLoop(ts, a.st, a.value) == TermLoop(ts, b.st, ab);
        assert TermLoop(ts, b.st, ab) == TermLoop(ts, c.st, Some(E.Binary(ab, ts[b.st.current], c.value)));
      }
    }
  }

  // ---------------------------------------------------------------------
  // `for`

  /** The loop a `for` desugars to: a `while` whose condition is the given
      one or `true`, and whose body is the loop body followed by the
      increment when there is one. */
  predicate DesugaredWhile(loop: S.Stmt, clauses: ForClauses, body: S.Stmt) {
    && loop.While?
    && loop.condition == (if clauses.condition.Some? then clauses.condition else Some(E.Literal(Boolean(true))))
    && loop.body == (if clauses.increment.Some? then S.Block([Some(body), Some(S.ExpressionStatement(clauses.increment))]) else body)
  }

  /** What a `for` desugars to: that loop, inside a block after the
      initializer when there is one. */
  predicate DesugaredFor(x: S.Stmt, clauses: ForClauses, body: S.Stmt) {
    if clauses.initializer.None? then DesugaredWhile(x, clauses, body)
    else
      && x.Block? && |x.statements| == 2 && x.statements[0] == clauses.initializer
      && x.statements[1].Some? && DesugaredWhile(x.statements[1].value, clauses, body)
  }

  /** A `for` whose clauses and body parse is the desugared loop, and ends
      where its body ends, at the loop depth it started with. */
  lemma ForDesugaring(ts: seq<Token>, s: ParseState)
    requires Ready(ts, s)
    ensures var header := ForHeader(ts, s);
            header.Ok? && LoopBody(ts, header.st).Ok? ==>
              var body := LoopBody(ts, header.st);
              var r := ForStatement(ts, s);
              && r.Ok? && r.st == body.st && r.st.loopDepth == s.loopDepth
              && DesugaredFor(r.value, header.value, body.value)
  {
  }

  // ---------------------------------------------------------------------
  // A test program: `var x=10;`

  /** The tokens of `var x=10;`: kinds, lexemes, literals and lines as
      `ScanTokens` makes them. */
  const VarTest: seq<Token> := [
    Token(Var, "var", Null, 1), Token(Identifier, "x", Null, 1), Token(Equal, "=", Null, 1),
    Token(TokenType.Number, "10", Num("10"), 1), Token(Semicolon, ";", Null, 1), Token(Eof, "", Null, 1)]

  /** A failure at the `Factor` level reaches `Expression` unchanged: no
      level above it catches or reports. */
  lemma FactorFailurePropagates(ts: seq<Token>, s: ParseState)
    requires Ready(ts, s)
    ensures Factor(ts, s).Err? ==> Expression(ts, s) == Factor(ts, s)
  {
    if Factor(ts, s).Err? {
      assert Term(ts, s) == Factor(ts, s);
      assert Comparison(ts, s) == Term(ts, s);
      assert Equality(ts, s) == Comparison(ts, s);
      assert AndOperator(ts, s) == Equality(ts, s);
      assert OrOperator(ts, s) == AndOperator(ts, s);
      assert Assignment(ts, s) == OrOperator(ts, s);
    }
  }

  /** The literal `10` is a complete unary operand. */
  lemma VarTestNumber()
    ensures Unary(VarTest, ParseState(3, 0, [])) == Ok(Some(E.Literal(Num("10"))), ParseState(4, 0, []))
  {
    assert Matches(VarTest, ParseState(3, 0, []), [TokenType.Number, String]);
  }

  /** `;` starts no operand: `Unary` throws "Expected expression." there
      without consuming or reporting. */
  lemma VarTestSemicolon()
    ensures Unary(VarTest, ParseState(4, 0, [])) == Err(ParseError(ExpectExpression), ParseState(4, 0, []))
  {
    var s4 := ParseState(4, 0, []);
    assert !Matches(VarTest, s4, OperatorKinds);
    ErrorProductionReports(VarTest, s4);
  }

  /** `Factor` needs a second operand: at `10;` the second `Unary` meets
      `;` and the whole initializer throws "Expected expression.". */
  lemma VarTestInitializer()
    ensures Expression(VarTest, ParseState(3, 0, [])) == Err(ParseError(ExpectExpression), ParseState(4, 0, []))
  {
    VarTestNumber();
    VarTestSemicolon();
    FactorFailurePropagates(VarTest, ParseState(3, 0, []));
  }

  /** The declaration `var x=10;` throws at the `;`. */
  lemma VarTestDeclarationThrows()
    ensures VarDeclaration(VarTest, ParseState(1, 0, [])) == Err(ParseError(ExpectExpression), ParseState(4, 0, []))
  {
    VarTestInitializer();
    assert Consume(VarTest, ParseState(1, 0, []), Identifier, ExpectVariableName) == Ok(VarTest[1], ParseState(2, 0, []));
    assert Matches(VarTest, ParseState(2, 0, []), [Equal]);
  }

  /** Recovery from the `;` skips it and stops at `Eof`. */
  lemma VarTestSynchronizes()
    ensures Synchronize(VarTest, ParseState(4, 0, [])) == ParseState(5, 0, [])
  {
    assert Advanced(VarTest, ParseState(4, 0, [])) == ParseState(5, 0, []);
  }

  /** The declaration's throw is caught: a null entry, with the cursor at
      `Eof`. */
  lemma VarTestDeclaration()
    ensures Declaration(VarTest, ParseState(0, 0, [])) == (None, ParseState(5, 0, []))
  {
    VarTestDeclarationThrows();
    VarTestSynchronizes();
    assert Matches(VarTest, ParseState(0, 0, []), [Var]);
  }

  /** A program that is one declaration: `Parse` gives its one entry. */
  lemma SingleDeclaration(ts: seq<Token>, s: ParseState)
    requires Ready(ts, s) && !IsAtEnd(ts, s)
    ensures var (d, t) := Declaration(ts, s);
            IsAtEnd(ts, t) ==> Parse(ts, s) == ([d], t)
  {
    var (d, t) := Declaration(ts, s);
    assert ParseLoop(ts, s, []) == ParseLoop(ts, t, [] + [d]);
    assert [] + [d] == [d];
  }

  /** So `var x=10;` parses to a single null entry, and nothing is
      reported. */
  lemma VarTestParsesToNull()
    ensures Parse(VarTest, ParseState(0, 0, [])) == ([None], ParseState(5, 0, []))
  {
    VarTestDeclaration();
    SingleDeclaration(VarTest, ParseState(0, 0, []));
  }
}

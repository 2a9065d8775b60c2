/** Properties of the syntax trees' textual renderings. */
module TreeFacts {
  import opened Results
  import opened Tokens
  import opened Expressions
  import S = Statements

  /** A null operand contributes nothing, but its blank stays. */
  lemma NullOperandRendering(op: Token, right: Option<Expr>)
    requires SlotText(right).Success?
    ensures Render(Binary(None, op, right)) == Success(" " + op.lexeme + " " + SlotText(right).value)
  {
    assert "" + " " == " ";
  }

  /** The number literal `5` compared with itself renders as "5 == 5". */
  lemma FiveEqualsFive(op: Token)
    requires op.lexeme == "=="
    ensures Render(Binary(Some(Literal(Num("5"))), op, Some(Literal(Num("5"))))) == Success("5 == 5")
  {
    assert "5" + " " + op.lexeme + " " + "5" == "5 == 5";
  }

  /** A string literal renders as its contents, a token value as the
      token's lexeme, and `nil` throws. */
  lemma LiteralRendering(text: string, t: Token)
    ensures Render(Literal(Text(text))) == Success(text)
    ensures Render(Literal(TokenRef(t))) == Success(t.lexeme)
    ensures Render(Literal(Null)).Failure?
  {
  }

  /** A `nil` operand makes its whole binary node throw. */
  lemma NilOperandThrows(op: Token, right: Option<Expr>)
    ensures Render(Binary(Some(Literal(Null)), op, right)).Failure?
  {
  }

  /** `print 5 == 5;` as a tree renders as "print 5 == 5". */
  lemma PrintRendering(op: Token)
    requires op.lexeme == "=="
    ensures S.Render(S.Print(Some(Binary(Some(Literal(Num("5"))), op, Some(Literal(Num("5"))))))) == Success("print 5 == 5")
  {
    FiveEqualsFive(op);
    assert "print " + "5 == 5" == "print 5 == 5";
  }

  /** `Accept` reaches a different `Visit` for each variant. */
  lemma TagsDistinguishVariants(a: Expr, b: Expr)
    ensures Tag(a) == Tag(b) <==>
              || (a.Binary? && b.Binary?) || (a.Grouping? && b.Grouping?)
              || (a.Literal? && b.Literal?) || (a.Unary? && b.Unary?) || (a.Variable? && b.Variable?)
              || (a.CallExpression? && b.CallExpression?) || (a.Assign? && b.Assign?)
              || (a.Logical? && b.Logical?) || (a.ThisExpression? && b.ThisExpression?)
              || (a.Conditional? && b.Conditional?)
  {
  }

  /** Variants without an own `ToString` render as distinct type names. */
  lemma ExpressionNamesDistinct(a: ExprTag, b: ExprTag)
    ensures DefaultName(a) == DefaultName(b) <==> a == b
  {
    var n := |"CraftInterpreter.Lox.Expression+"|;
    if DefaultName(a) == DefaultName(b) {
      assert DefaultName(a)[n..] == DefaultName(b)[n..];
    }
  }

  lemma StatementNamesDistinct(a: S.StmtTag, b: S.StmtTag)
    ensures S.DefaultName(a) == S.DefaultName(b) <==> a == b
  {
    var n := |"CraftInterpreter.Lox.Statement+"|;
    if S.DefaultName(a) == S.DefaultName(b) {
      assert S.DefaultName(a)[n..] == S.DefaultName(b)[n..];
    }
  }
}

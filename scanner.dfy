/** The scanner as the source has it: an object over one source string with
    the cursors `start`, `current` and `line`, appending to its token list
    in place.  Every method is proved against the reference definition in
    `ScanSpec`. */
module Scanning {
  import opened Results
  import opened Tokens
  import opened Diagnostics
  import opened ScanSpec

  class Scanner {
    const source: string
    var tokens: seq<Token>
    var current: nat
    var line: int
    var start: nat
    /** What the scanner has passed to `Program.Error`. */
    ghost var reports: seq<Report>

    ghost predicate Valid()
      reads this
    {
      start <= current <= |source|
    }

    constructor (source: string)
      ensures Valid()
      ensures this.source == source && tokens == [] && reports == []
      ensures current == 0 && start == 0 && line == 1
    {
      this.source := source;
      tokens := [];
      current := 0;
      line := 1;
      start := 0;
      reports := [];
    }

    /** Scans from the current position to the end of the source.  The
        result is the token list followed by one `Eof` token with an empty
        lexeme and the final line, or the unexpected-character exception. */
    method ScanTokens() returns (r: Result<seq<Token>, ScanError>)
      requires Valid()
      modifies this
      ensures Valid()
      ensures var run := ScanAll(source, old(current), old(line));
              && tokens == old(tokens) + run.tokens + (if run.ok then [EofToken(run.line)] else [])
              && reports == old(reports) + run.reports
              && current == run.stop && line == run.line
              && r == (if run.ok then Success(tokens) else Failure(UnexpectedCharacter))
    {
      ghost var whole := ScanAll(source, current, line);
      var atEnd := IsAtEnd();
      while !atEnd
        invariant Valid()
        invariant atEnd == (current >= |source|)
        invariant Prefixed(old(tokens), old(reports), whole) == Prefixed(tokens, reports, ScanAll(source, current, line))
        decreases |source| - current
      {
        // each lexeme is scanned from its own first character
        start := current;
        ghost var before := current;
        ghost var lineBefore := line;
        ghost var tokensBefore := tokens;
        ghost var reportsBefore := reports;
        var ok := ScanToken();
        if !ok {
          return Failure(UnexpectedCharacter);
        }
        ScanAllAfterStep(source, before, lineBefore, tokensBefore, reportsBefore);
        atEnd := IsAtEnd();
      }
      tokens := tokens + [EofToken(line)];
      r := Success(tokens);
    }

    method IsAtEnd() returns (b: bool)
      requires Valid()
      ensures b <==> current == |source|
    {
      b := current >= |source|;
    }

    /** The state has moved on exactly as the scan step `step` says. */
    twostate predicate Performed(step: Step)
      reads this
    {
      && step.Scanned?
      && current == step.next && line == step.line
      && tokens == old(tokens) + step.emitted
      && reports == old(reports) + step.reported
    }

    /** One scan step with `start == current`: exactly what `ScanStep`
        says, with `ok == false` for the unexpected-character exception. */
    method ScanToken() returns (ok: bool)
      requires Valid() && start == current && current < |source|
      modifies this
      ensures Valid() && start == old(start)
      ensures var step := ScanStep(source, old(current), old(line));
              && ok == step.Scanned?
              && (!ok ==> current == old(current) + 1 && line == old(line)
                          && tokens == old(tokens) && reports == old(reports))
              && (ok ==> Performed(step))
    {
      ok := true;
      ghost var step := ScanStep(source, current, line);
      var c := Advance();
      match c {
        case '(' => AddToken(LeftParenthesis, Null);
        case ')' => AddToken(RightParenthesis, Null);
        case '{' => AddToken(LeftBrace, Null);
        case '}' => AddToken(RightBrace, Null);
        case ',' => AddToken(Comma, Null);
        case '.' => AddToken(Dot, Null);
        case '-' => AddToken(Minus, Null);
        case '+' => AddToken(Plus, Null);
        case ';' => AddToken(Semicolon, Null);
        case '*' => AddToken(Star, Null);
        case '!' => Operator(Bang, Equal);
        case '=' => Operator(Equal, EqualEqual);
        case '<' => Operator(Less, LessEqual);
        case '>' => Operator(Greater, GreaterEqual);
        case '/' => SlashOrComment();
        case ' ' =>
        case '\r' =>
        case '\t' =>
          // blanks, tabs and carriage returns produce no token
        case '\n' =>
          line := line + 1;
        case '"' =>
          StringToken();
        case _ =>
          if IsDigit(c) {
            Number();
          } else if IsAlpha(c) {
            Identifier();
          } else {
            // The exception is thrown before the error is reported.
            ok := false;
          }
      }
    }

    /** A one- or two-character operator whose first character has been
        consumed: `second` when '=' follows, else `single`. */
    method Operator(single: TokenType, second: TokenType)
      requires Valid() && start < |source| && current == start + 1
      modifies this`current, this`tokens
      ensures Valid()
      ensures Performed(OneOrTwo(source, start, line, single, second))
    {
      var two := Match('=');
      AddToken(if two then second else single, Null);
    }

    /** A '/' that has been consumed: a comment up to the end of the line,
        or `Slash`. */
    method SlashOrComment()
      requires Valid() && start < |source| && current == start + 1
      modifies this`current, this`tokens
      ensures Valid()
      ensures Performed(SlashStep(source, start, line))
    {
      var comment := Match('/');
      if comment {
        // skip to the newline, which is left for the next step
        var p := Peek();
        var atEnd := IsAtEnd();
        while p != '\n' && !atEnd
          invariant start + 2 <= current <= |source|
          modifies this`current
          invariant p == CharAt(source, current) && atEnd == (current == |source|)
          invariant FirstFrom(source, current, '\n') == FirstFrom(source, start + 2, '\n')
          decreases |source| - current
        {
          var _ := Advance();
          p := Peek();
          atEnd := IsAtEnd();
        }
        assert current == FirstFrom(source, start + 2, '\n');
      } else {
        AddToken(Slash, Null);
      }
    }

    method Identifier()
      requires Valid() && start < |source| && current == start + 1
      modifies this`current, this`tokens
      ensures Valid()
      ensures Performed(Emit(source, start, IdentifierEnd(source, start + 1),
                             WordKind(source[start..IdentifierEnd(source, start + 1)]), Null, line))
    {
      var c := Peek();
      while IsAlphaNumeric(c)
        invariant start + 1 <= current <= |source| && c == CharAt(source, current)
        modifies this`current
        invariant IdentifierEnd(source, current) == IdentifierEnd(source, start + 1)
        decreases |source| - current
      {
        var _ := Advance();
        c := Peek();
      }
      assert current == IdentifierEnd(source, start + 1);
      // reserved spellings take their keyword kind
      var text := source[start..current];
      var kind := WordKind(text);
      AddToken(kind, Null);
    }

    method Number()
      requires Valid() && start < |source| && current == start + 1
      modifies this`current, this`tokens
      ensures Valid()
      ensures Performed(Emit(source, start, NumberEnd(source, start + 1), TokenType.Number,
                             Num(source[start..NumberEnd(source, start + 1)]), line))
    {
      SkipDigits();
      // a dot counts only when a digit follows it
      var c := Peek();
      var next := PeekNext();
      if c == '.' && IsDigit(next) {
        // step over the decimal point
        var _ := Advance();
        SkipDigits();
      }
      AddToken(TokenType.Number, Num(source[start..current]));
    }

    /** Advances over the digits from the current position. */
    method SkipDigits()
      requires Valid()
      modifies this`current
      ensures Valid()
      ensures current == DigitsEnd(source, old(current))
    {
      var c := Peek();
      while IsDigit(c)
        invariant old(current) <= current <= |source| && c == CharAt(source, current)
        invariant DigitsEnd(source, current) == DigitsEnd(source, old(current))
        decreases |source| - current
      {
        var _ := Advance();
        c := Peek();
      }
    }

    method PeekNext() returns (c: char)
      requires Valid()
      ensures c == CharAt(source, current + 1)
    {
      if current + 1 >= |source| {
        return '\0';
      }
      c := source[current + 1];
    }

    method Peek() returns (c: char)
      requires Valid()
      ensures c == CharAt(source, current)
    {
      var atEnd := IsAtEnd();
      if atEnd {
        return '\0';
      }
      c := source[current];
    }

    /** A string literal whose opening quote has been consumed.  The line
        counter follows the newlines inside the literal. */
    method StringToken()
      requires Valid() && start < |source| && current == start + 1
      modifies this`current, this`line, this`tokens, this`reports
      ensures Valid()
      ensures Performed(StringStep(source, start, old(line)))
    {
      SkipStringBody();
      ghost var close := current;
      var atEnd := IsAtEnd();
      // the source ended inside the literal
      if atEnd {
        reports := reports + [LineError(line, "Unterminated string.")];
        return;
      }
      // step over the closing quote
      var _ := Advance();
      // the value excludes both quote characters
      var value := source[start + 1..current - 1];
      AddToken(String, Text(value));
      assert StringStep(source, start, old(line)) == Emit(source, start, close + 1, String, Text(value), line);
    }

    /** Advances to the next '"' or the end, counting the newlines passed. */
    method SkipStringBody()
      requires Valid()
      modifies this`current, this`line
      ensures Valid()
      ensures current == FirstFrom(source, old(current), '"')
      ensures line == old(line) + NewlinesIn(source, old(current), current)
    {
      var c := Peek();
      var atEnd := IsAtEnd();
      while c != '"' && !atEnd
        invariant old(current) <= current <= |source|
        invariant c == CharAt(source, current) && atEnd == (current == |source|)
        invariant FirstFrom(source, current, '"') == FirstFrom(source, old(current), '"')
        invariant line == old(line) + NewlinesIn(source, old(current), current)
        decreases |source| - current
      {
        if c == '\n' {
          line := line + 1;
        }
        var _ := Advance();
        c := Peek();
        atEnd := IsAtEnd();
      }
    }

    method Match(expected: char) returns (matched: bool)
      requires Valid()
      modifies this`current
      ensures Valid()
      ensures matched == MatchesAt(source, old(current), expected)
      ensures current == if matched then old(current) + 1 else old(current)
    {
      var atEnd := IsAtEnd();
      if atEnd {
        return false;
      }
      if source[current] != expected {
        return false;
      }
      current := current + 1;
      return true;
    }

    method Advance() returns (c: char)
      requires Valid() && current < |source|
      modifies this`current
      ensures Valid()
      ensures current == old(current) + 1 && c == source[old(current)]
    {
      current := current + 1;
      c := source[current - 1];
    }

    /** Appends the token for the lexeme `source[start..current]`. */
    method AddToken(kind: TokenType, literal: Value)
      requires Valid()
      modifies this`tokens
      ensures tokens == old(tokens) + Emit(source, start, current, kind, literal, line).emitted
    {
      var text := source[start..current];
      tokens := tokens + [Token(kind, text, literal, line)];
    }
  }
}

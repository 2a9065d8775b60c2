/** Properties of the reference scanner: what each kind of scan step
    produces, how the line counter follows the newlines consumed, and the
    shape of a whole pass (exact lexemes in source order, one final `Eof`). */
module ScanFacts {
  import opened Results
  import opened Tokens
  import opened Diagnostics
  import opened ScanSpec

  // ---------------------------------------------------------------------
  // The character runs the scanner skips over

  /** No character before `FirstFrom(src, i, c)` is `c`. */
  lemma {:induction false} FirstFromSkips(src: string, i: nat, c: char)
    requires i <= |src|
    ensures forall k :: i <= k < FirstFrom(src, i, c) ==> src[k] != c
    decreases |src| - i
  {
    if i < |src| && src[i] != c {
      FirstFromSkips(src, i + 1, c);
    }
  }

  /** Every character of a digit run is a digit. */
  lemma {:induction false} DigitsEndDigits(src: string, i: nat)
    requires i <= |src|
    ensures forall k :: i <= k < DigitsEnd(src, i) ==> IsDigit(src[k])
    decreases |src| - i
  {
    if i < |src| && IsDigit(src[i]) {
      DigitsEndDigits(src, i + 1);
    }
  }

  /** Every character of an identifier run is a letter, digit or '_'. */
  lemma {:induction false} IdentifierEndAlphaNumeric(src: string, i: nat)
    requires i <= |src|
    ensures forall k :: i <= k < IdentifierEnd(src, i) ==> IsAlphaNumeric(src[k])
    decreases |src| - i
  {
    if i < |src| && IsAlphaNumeric(src[i]) {
      IdentifierEndAlphaNumeric(src, i + 1);
    }
  }

  /** A digit run ends exactly at the first non-digit: the end is the only
      position with digits before it and none at it. */
  lemma {:induction false} DigitsEndExact(src: string, i: nat, j: nat)
    requires i <= j <= |src|
    requires forall k :: i <= k < j ==> IsDigit(src[k])
    requires j == |src| || !IsDigit(src[j])
    ensures DigitsEnd(src, i) == j
    decreases j - i
  {
    if i < j {
      DigitsEndExact(src, i + 1, j);
    }
  }

  /** An identifier run ends exactly at the first character that is not a
      letter, digit or '_'. */
  lemma {:induction false} IdentifierEndExact(src: string, i: nat, j: nat)
    requires i <= j <= |src|
    requires forall k :: i <= k < j ==> IsAlphaNumeric(src[k])
    requires j == |src| || !IsAlphaNumeric(src[j])
    ensures IdentifierEnd(src, i) == j
    decreases j - i
  {
    if i < j {
      IdentifierEndExact(src, i + 1, j);
    }
  }

  // ---------------------------------------------------------------------
  // Counting newlines

  /** Newline counts add up over adjacent ranges. */
  lemma {:induction false} NewlinesInSplit(src: string, lo: nat, mid: nat, hi: nat)
    requires lo <= mid <= hi <= |src|
    ensures NewlinesIn(src, lo, hi) == NewlinesIn(src, lo, mid) + NewlinesIn(src, mid, hi)
    decreases hi
  {
    if hi > mid {
      NewlinesInSplit(src, lo, mid, hi - 1);
    }
  }

  /** A range without a newline character counts none. */
  lemma {:induction false} NoNewlines(src: string, lo: nat, hi: nat)
    requires lo <= hi <= |src|
    requires forall k :: lo <= k < hi ==> src[k] != '\n'
    ensures NewlinesIn(src, lo, hi) == 0
    decreases hi
  {
    if hi > lo {
      NoNewlines(src, lo, hi - 1);
    }
  }

  /** `NewlinesIn` counts exactly the '\n' characters of the slice. */
  lemma {:induction false} NewlinesInCounts(src: string, lo: nat, hi: nat)
    requires lo <= hi <= |src|
    ensures NewlinesIn(src, lo, hi) == multiset(src[lo..hi])['\n']
    decreases hi
  {
    if hi > lo {
      NewlinesInCounts(src, lo, hi - 1);
      assert src[lo..hi] == src[lo..hi - 1] + [src[hi - 1]];
    } else {
      assert src[lo..hi] == [];
    }
  }

  // ---------------------------------------------------------------------
  // One scan step

  /** The kinds no scan step produces: `Eof` is added only by `ScanTokens`;
      `!=` scans as `Equal`, so `BangEqual` never appears; `break` is not a
      keyword; and no case of `ScanToken` produces the rest. */
  predicate NeverScanned(k: TokenType) {
    k.Undefined? || k.LeftBracket? || k.RightBracket? || k.BangEqual? || k.PlusPlus?
    || k.MinusMinus? || k.Question? || k.Colon? || k.Modulus? || k.Break? || k.Eof?
  }

  /** What every successful step has in common: the line moves by the
      newlines consumed, and the token emitted (if any) has the consumed text
      as its lexeme, the step's final line, and a kind the scanner can
      produce. */
  predicate WellFormedStep(src: string, start: nat, line: int, step: Step)
    requires start < |src|
  {
    step.Scanned? ==>
      && start < step.next <= |src|
      && step.line == line + NewlinesIn(src, start, step.next)
      && |step.emitted| <= 1
      && forall t :: t in step.emitted ==>
           t.lexeme == src[start..step.next] && t.line == step.line && !NeverScanned(t.kind)
  }

  const Digits := "0123456789"
  const Lower := "abcdefghijklmnopqrstuvwxyz"
  const Upper := "ABCDEFGHIJKLMNOPQRSTUVWXYZ"

  lemma LowerClass(c: char)
    ensures 'a' <= c <= 'z' <==> c in Lower
  { }

  lemma UpperClass(c: char)
    ensures 'A' <= c <= 'Z' <==> c in Upper
  { }

  lemma DigitClass(c: char)
    ensures IsDigit(c) <==> c in Digits
  { }

  /** Letters are the 26 lower-case and 26 upper-case ASCII letters and `_`. */
  lemma AlphaClass(c: char)
    ensures IsAlpha(c) <==> c in Lower + Upper + "_"
  {
    LowerClass(c);
    UpperClass(c);
  }

  /** Identifier characters are the letters, `_` and the ten digits; no
      other character, in particular no non-ASCII letter, qualifies. */
  lemma AlphaNumericClass(c: char)
    ensures IsAlphaNumeric(c) <==> c in Lower + Upper + "_" + Digits
  {
    AlphaClass(c);
    DigitClass(c);
  }

  /** The reserved word a keyword kind is spelled as. */
  function Spelling(k: TokenType): string {
    match k
    case And => "and" case Class => "class" case Else => "else" case False => "false"
    case For => "for" case Fun => "fun" case If => "if" case Nil => "nil" case Or => "or"
    case Print => "print" case Return => "return" case SuperClass => "super"
    case This => "this" case True => "true" case Var => "var" case While => "while"
    case _ => ""
  }

  /** The keyword table: `break` is not an entry, and no keyword scans as
      an `Identifier`. */
  lemma KeywordTable()
    ensures "break" !in Keywords
    ensures forall w :: w in Keywords ==> Keywords[w] != Identifier
  {
  }

  /** Every keyword kind is in the table under its reserved word. */
  lemma KeywordSpellings(k: TokenType)
    requires Spelling(k) != ""
    ensures Spelling(k) in Keywords && Keywords[Spelling(k)] == k
  {
  }

  lemma KeywordKinds(text: string)
    ensures !NeverScanned(WordKind(text))
  {
  }

  lemma SlashStepWellFormed(src: string, start: nat, line: int)
    requires start < |src| && src[start] == '/'
    ensures WellFormedStep(src, start, line, SlashStep(src, start, line))
  {
    if MatchesAt(src, start + 1, '/') {
      var next := FirstFrom(src, start + 2, '\n');
      FirstFromSkips(src, start + 2, '\n');
      NoNewlines(src, start, next);
    } else {
      NoNewlines(src, start, start + 1);
    }
  }

  lemma StringStepWellFormed(src: string, start: nat, line: int)
    requires start < |src| && src[start] == '"'
    ensures WellFormedStep(src, start, line, StringStep(src, start, line))
  {
    var close := FirstFrom(src, start + 1, '"');
    NewlinesInSplit(src, start, start + 1, close);
    NoNewlines(src, start, start + 1);
    if close < |src| {
      NewlinesInSplit(src, start, close, close + 1);
      NoNewlines(src, close, close + 1);
    }
  }

  lemma WordStepWellFormed(src: string, start: nat, line: int)
    requires start < |src|
    ensures WellFormedStep(src, start, line, WordStep(src, start, line))
  {
    var c := src[start];
    if IsDigit(c) {
      var whole := DigitsEnd(src, start + 1);
      var end := NumberEnd(src, start + 1);
      DigitsEndDigits(src, start + 1);
      if end != whole {
        DigitsEndDigits(src, whole + 1);
      }
      assert forall k :: start <= k < end ==> src[k] != '\n' by {
        forall k | start <= k < end ensures src[k] != '\n' {
          if start < k && k != whole {
            assert IsDigit(src[k]);
          }
        }
      }
      NoNewlines(src, start, end);
    } else if IsAlpha(c) {
      var end := IdentifierEnd(src, start + 1);
      IdentifierEndAlphaNumeric(src, start + 1);
      NoNewlines(src, start, end);
      KeywordKinds(src[start..end]);
    }
  }

  lemma EmitOneWellFormed(src: string, start: nat, line: int, kind: TokenType)
    requires start < |src| && src[start] != '\n' && !NeverScanned(kind)
    ensures WellFormedStep(src, start, line, Emit(src, start, start + 1, kind, Null, line))
  {
    NoNewlines(src, start, start + 1);
  }

  lemma OneOrTwoWellFormed(src: string, start: nat, line: int, single: TokenType, second: TokenType)
    requires start < |src| && src[start] != '\n' && !NeverScanned(single) && !NeverScanned(second)
    ensures WellFormedStep(src, start, line, OneOrTwo(src, start, line, single, second))
  {
    if MatchesAt(src, start + 1, '=') {
      NoNewlines(src, start, start + 2);
    } else {
      NoNewlines(src, start, start + 1);
    }
  }

  /** Every successful scan step is well formed. */
  lemma StepWellFormed(src: string, start: nat, line: int)
    requires start < |src|
    ensures WellFormedStep(src, start, line, ScanStep(src, start, line))
  {
    match src[start]
    case '(' => EmitOneWellFormed(src, start, line, LeftParenthesis);
    case ')' => EmitOneWellFormed(src, start, line, RightParenthesis);
    case '{' => EmitOneWellFormed(src, start, line, LeftBrace);
    case '}' => EmitOneWellFormed(src, start, line, RightBrace);
    case ',' => EmitOneWellFormed(src, start, line, Comma);
    case '.' => EmitOneWellFormed(src, start, line, Dot);
    case '-' => EmitOneWellFormed(src, start, line, Minus);
    case '+' => EmitOneWellFormed(src, start, line, Plus);
    case ';' => EmitOneWellFormed(src, start, line, Semicolon);
    case '*' => EmitOneWellFormed(src, start, line, Star);
    case '!' => OneOrTwoWellFormed(src, start, line, Bang, Equal);
    case '=' => OneOrTwoWellFormed(src, start, line, Equal, EqualEqual);
    case '<' => OneOrTwoWellFormed(src, start, line, Less, LessEqual);
    case '>' => OneOrTwoWellFormed(src, start, line, Greater, GreaterEqual);
    case '/' => SlashStepWellFormed(src, start, line);
    case ' ' => NoNewlines(src, start, start + 1);
    case '\r' => NoNewlines(src, start, start + 1);
    case '\t' => NoNewlines(src, start, start + 1);
    case '\n' =>
    case '"' => StringStepWellFormed(src, start, line);
    case _ => WordStepWellFormed(src, start, line);
  }

  // ---------------------------------------------------------------------
  // A whole pass

  /** Indexing past a prefix reaches into the rest. */
  lemma IndexPastPrefix<T>(prefix: seq<T>, rest: seq<T>, i: nat)
    requires |prefix| <= i < |prefix| + |rest|
    ensures (prefix + rest)[i] == rest[i - |prefix|]
  {
  }

  /** Where a token's lexeme lies in the source: `src[lo..hi]`. */
  datatype Span = Span(lo: nat, hi: nat)

  /** The span of each token a pass from `pos` emits, in order. */
  function Spans(src: string, pos: nat, line: int): seq<Span>
    requires pos <= |src|
    decreases |src| - pos
  {
    if pos == |src| then []
    else
      match ScanStep(src, pos, line)
      case UnexpectedChar => []
      case Scanned(emitted, next, l, _) =>
        (if emitted == [] then [] else [Span(pos, next)]) + Spans(src, next, l)
  }

  /** There is one span per token. */
  lemma {:induction false} SpansLength(src: string, pos: nat, line: int)
    requires pos <= |src|
    ensures |Spans(src, pos, line)| == |ScanAll(src, pos, line).tokens|
    decreases |src| - pos
  {
    if pos < |src| {
      var step := ScanStep(src, pos, line);
      StepWellFormed(src, pos, line);
      if step.Scanned? {
        SpansLength(src, step.next, step.line);
      }
    }
  }

  /** The final line of a pass is the starting line plus the newlines
      consumed, including those inside string literals. */
  lemma {:induction false} ScanAllLine(src: string, pos: nat, line: int)
    requires pos <= |src|
    ensures var run := ScanAll(src, pos, line);
            run.line == line + NewlinesIn(src, pos, run.stop)
    decreases |src| - pos
  {
    if pos < |src| {
      var step := ScanStep(src, pos, line);
      StepWellFormed(src, pos, line);
      if step.UnexpectedChar? {
        assert src[pos] != '\n';
        NoNewlines(src, pos, pos + 1);
      } else {
        ScanAllLine(src, step.next, step.line);
        NewlinesInSplit(src, pos, step.next, ScanAll(src, step.next, step.line).stop);
      }
    }
  }

  /** The `i`-th span of a pass lies between `pos` and where the pass
      stopped, and is not empty. */
  lemma {:induction false} SpanBounds(src: string, pos: nat, line: int, i: nat)
    requires pos <= |src| && i < |Spans(src, pos, line)|
    ensures var spans := Spans(src, pos, line);
            pos <= spans[i].lo < spans[i].hi <= ScanAll(src, pos, line).stop
    decreases |src| - pos
  {
    var step := ScanStep(src, pos, line);
    var next, l, e := step.next, step.line, step.emitted;
    var restSpans := Spans(src, next, l);
    if !(|e| == 1 && i == 0) {
      var j := i - |e|;
      SpanBounds(src, next, l, j);
      IndexPastPrefix(if e == [] then [] else [Span(pos, next)], restSpans, i);
    }
  }

  /** The `i`-th token and span of a pass are either those of its first
      step or the `(i - k)`-th of the rest, where `k` is what the first step
      emitted. */
  lemma PassIndex(src: string, pos: nat, line: int, i: nat)
    requires pos <= |src| && i < |Spans(src, pos, line)|
    ensures pos < |src| && ScanStep(src, pos, line).Scanned?
    ensures var step := ScanStep(src, pos, line);
            var run, spans := ScanAll(src, pos, line), Spans(src, pos, line);
            var rest, restSpans := ScanAll(src, step.next, step.line), Spans(src, step.next, step.line);
            && WellFormedStep(src, pos, line, step)
            && |spans| == |run.tokens|
            && (if |step.emitted| == 1 && i == 0 then
                  run.tokens[0] == step.emitted[0] && spans[0] == Span(pos, step.next)
                else
                  && |step.emitted| <= i
                  && i - |step.emitted| < |restSpans| == |rest.tokens|
                  && run.tokens[i] == rest.tokens[i - |step.emitted|]
                  && spans[i] == restSpans[i - |step.emitted|])
  {
    SpansLength(src, pos, line);
    StepWellFormed(src, pos, line);
    var step := ScanStep(src, pos, line);
    var e := step.emitted;
    SpansLength(src, step.next, step.line);
    if !(|e| == 1 && i == 0) {
      IndexPastPrefix(e, ScanAll(src, step.next, step.line).tokens, i);
      IndexPastPrefix(if e == [] then [] else [Span(pos, step.next)], Spans(src, step.next, step.line), i);
    }
  }

  /** The `i`-th token of a pass has exactly the source text of its span as
      its lexeme. */
  lemma {:induction false} TokenLexeme(src: string, pos: nat, line: int, i: nat)
    requires pos <= |src| && i < |Spans(src, pos, line)|
    ensures var run, spans := ScanAll(src, pos, line), Spans(src, pos, line);
            && i < |run.tokens| && spans[i].lo <= spans[i].hi <= |src|
            && run.tokens[i].lexeme == src[spans[i].lo..spans[i].hi]
    decreases |src| - pos
  {
    PassIndex(src, pos, line, i);
    SpanBounds(src, pos, line, i);
    var step := ScanStep(src, pos, line);
    if |step.emitted| == 1 && i == 0 {
      assert step.emitted[0] in step.emitted;
    } else {
      TokenLexeme(src, step.next, step.line, i - |step.emitted|);
    }
  }

  /** The `i`-th token of a pass is on the starting line plus the newlines
      up to the end of the token. */
  lemma {:induction false} TokenLine(src: string, pos: nat, line: int, i: nat)
    requires pos <= |src| && i < |Spans(src, pos, line)|
    ensures var run, spans := ScanAll(src, pos, line), Spans(src, pos, line);
            && i < |run.tokens| && pos <= spans[i].hi <= |src|
            && run.tokens[i].line == line + NewlinesIn(src, pos, spans[i].hi)
    decreases |src| - pos
  {
    PassIndex(src, pos, line, i);
    SpanBounds(src, pos, line, i);
    var step := ScanStep(src, pos, line);
    if |step.emitted| == 1 && i == 0 {
      assert step.emitted[0] in step.emitted;
    } else {
      var j := i - |step.emitted|;
      TokenLine(src, step.next, step.line, j);
      SpanBounds(src, step.next, step.line, j);
      NewlinesInSplit(src, pos, step.next, Spans(src, step.next, step.line)[j].hi);
    }
  }

  /** No token of a pass has a kind the scanner never produces. */
  lemma {:induction false} TokenKind(src: string, pos: nat, line: int, i: nat)
    requires pos <= |src| && i < |ScanAll(src, pos, line).tokens|
    ensures !NeverScanned(ScanAll(src, pos, line).tokens[i].kind)
    decreases |src| - pos
  {
    var step := ScanStep(src, pos, line);
    StepWellFormed(src, pos, line);
    var next, l, e := step.next, step.line, step.emitted;
    var rest := ScanAll(src, next, l);
    if |e| == 1 && i == 0 {
      assert e[0] in e;
    } else {
      var j := i - |e|;
      TokenKind(src, next, l, j);
      IndexPastPrefix(e, rest.tokens, i);
    }
  }

  /** Consecutive tokens of a pass do not overlap and come in source order. */
  lemma {:induction false} SpansOrdered(src: string, pos: nat, line: int, i: nat)
    requires pos <= |src| && i + 1 < |Spans(src, pos, line)|
    ensures var spans := Spans(src, pos, line); spans[i].hi <= spans[i + 1].lo
    decreases |src| - pos
  {
    var step := ScanStep(src, pos, line);
    var next, l, e := step.next, step.line, step.emitted;
    var restSpans := Spans(src, next, l);
    var spans := (if e == [] then [] else [Span(pos, next)]) + restSpans;
    if |e| == 1 && i == 0 {
      SpanBounds(src, next, l, 0);
      assert spans[1] == restSpans[0];
    } else {
      var j := i - |e|;
      SpansOrdered(src, next, l, j);
      assert spans[i] == restSpans[j] && spans[i + 1] == restSpans[j + 1];
    }
  }

  /** A whole pass tiles its tokens over the source: one span per token,
      each lexeme exactly its span's text, each line the starting line plus
      the newlines up to the token's end, spans in order without overlap,
      and the final line the starting line plus every newline consumed. */
  lemma ScanAllTiles(src: string, pos: nat, line: int)
    requires pos <= |src|
    ensures var run, spans := ScanAll(src, pos, line), Spans(src, pos, line);
            && run.line == line + NewlinesIn(src, pos, run.stop)
            && |spans| == |run.tokens|
            && (forall i :: 0 <= i < |spans| ==>
                  && pos <= spans[i].lo < spans[i].hi <= run.stop
                  && run.tokens[i].lexeme == src[spans[i].lo..spans[i].hi]
                  && run.tokens[i].line == line + NewlinesIn(src, pos, spans[i].hi)
                  && !NeverScanned(run.tokens[i].kind))
            && (forall i :: 0 <= i < |spans| - 1 ==> spans[i].hi <= spans[i + 1].lo)
  {
    ScanAllLine(src, pos, line);
    SpansLength(src, pos, line);
    var run, spans := ScanAll(src, pos, line), Spans(src, pos, line);
    forall i | 0 <= i < |spans|
      ensures && pos <= spans[i].lo < spans[i].hi <= run.stop
              && run.tokens[i].lexeme == src[spans[i].lo..spans[i].hi]
              && run.tokens[i].line == line + NewlinesIn(src, pos, spans[i].hi)
              && !NeverScanned(run.tokens[i].kind)
    {
      SpanBounds(src, pos, line, i);
      TokenLexeme(src, pos, line, i);
      TokenLine(src, pos, line, i);
      TokenKind(src, pos, line, i);
    }
    forall i | 0 <= i < |spans| - 1
      ensures spans[i].hi <= spans[i + 1].lo
    {
      SpansOrdered(src, pos, line, i);
    }
  }

  /** A successful pass ends with exactly one `Eof` token, with an empty
      lexeme, no literal and the final line: one plus the number of
      newlines in the source. */
  lemma ScanEndsWithEof(src: string)
    ensures Scan(src).Success? ==>
              var tokens := Scan(src).value;
              && |tokens| >= 1
              && tokens[|tokens| - 1] == Token(Eof, "", Null, 1 + NewlinesIn(src, 0, |src|))
              && forall i :: 0 <= i < |tokens| - 1 ==> tokens[i].kind != Eof
  {
    var run := ScanAll(src, 0, 1);
    ScanAllTiles(src, 0, 1);
    SpansLength(src, 0, 1);
    if run.ok {
      var tokens := run.tokens + [EofToken(run.line)];
      forall i | 0 <= i < |tokens| - 1
        ensures tokens[i].kind != Eof
      {
        assert tokens[i] == run.tokens[i];
      }
    }
  }

  /** The `Eof` token renders as "Eof " (type, a space, the empty lexeme). */
  lemma EofRendering(line: int)
    ensures ToString(EofToken(line)) == "Eof "
  {
  }

  /** A pass that fails stopped just after a character `ScanToken` has no
      case for, at the line reached so far. */
  lemma {:induction false} ScanAllStopsAtUnexpected(src: string, pos: nat, line: int)
    requires pos <= |src|
    ensures var run := ScanAll(src, pos, line);
            !run.ok ==> pos < run.stop && ScanStep(src, run.stop - 1, run.line).UnexpectedChar?
    decreases |src| - pos
  {
    if pos < |src| {
      var step := ScanStep(src, pos, line);
      if step.Scanned? {
        ScanAllStopsAtUnexpected(src, step.next, step.line);
      }
    }
  }

  // ---------------------------------------------------------------------
  // What each kind of character scans as

  /** An operator that may take a following '=': the two-character token
      when '=' follows, else the one-character token; nothing else is
      consumed. */
  function OperatorStep(src: string, start: nat, line: int, single: TokenType, text: string,
                        second: TokenType, text2: string): Step
    requires start < |src|
  {
    if start + 1 < |src| && src[start + 1] == '=' then Scanned([Token(second, text2, Null, line)], start + 2, line, [])
    else Scanned([Token(single, text, Null, line)], start + 1, line, [])
  }

  /** `=`, `<` and `>` followed by `=` give `EqualEqual`, `LessEqual` and
      `GreaterEqual`; `!` followed by `=` gives `Equal`. */
  lemma TwoCharacterOperators(src: string, start: nat, line: int)
    requires start < |src|
    ensures src[start] == '!' ==> ScanStep(src, start, line) == OperatorStep(src, start, line, Bang, "!", Equal, "!=")
    ensures src[start] == '=' ==> ScanStep(src, start, line) == OperatorStep(src, start, line, Equal, "=", EqualEqual, "==")
    ensures src[start] == '<' ==> ScanStep(src, start, line) == OperatorStep(src, start, line, Less, "<", LessEqual, "<=")
    ensures src[start] == '>' ==> ScanStep(src, start, line) == OperatorStep(src, start, line, Greater, ">", GreaterEqual, ">=")
  {
    if start + 1 < |src| {
      assert src[start..start + 2] == [src[start], src[start + 1]];
    }
    assert src[start..start + 1] == [src[start]];
  }

  /** `src` is `a != b`, spelled out position by position. */
  predicate SpellsNotEqual(src: string) {
    |src| == 6 && src[0] == 'a' && src[1] == ' ' && src[2] == '!' && src[3] == '='
    && src[4] == ' ' && src[5] == 'b'
  }

  /** From the blank after `!=` on: the identifier `b`. */
  lemma NotEqualTail(src: string)
    requires SpellsNotEqual(src)
    ensures ScanAll(src, 4, 1) == Run([Token(TokenType.Identifier, "b", Null, 1)], [], 6, 1, true)
  {
    assert src[5..6] == "b" && WordKind("b") == TokenType.Identifier;
    assert ScanAll(src, 5, 1) == Run([Token(TokenType.Identifier, "b", Null, 1)], [], 6, 1, true);
  }

  /** From the blank before `!=` on. */
  lemma NotEqualMiddle(src: string)
    requires SpellsNotEqual(src)
    ensures ScanAll(src, 1, 1) == Run([Token(Equal, "!=", Null, 1),
      Token(TokenType.Identifier, "b", Null, 1)], [], 6, 1, true)
  {
    NotEqualTail(src);
    TwoCharacterOperators(src, 2, 1);
  }

  /** `a != b` scans as the identifier `a`, `Equal` with the lexeme "!="
      and the identifier `b`. */
  lemma BangEqualScansAsEqual(src: string)
    requires SpellsNotEqual(src)
    ensures Scan(src) == Success([
      Token(TokenType.Identifier, "a", Null, 1), Token(Equal, "!=", Null, 1),
      Token(TokenType.Identifier, "b", Null, 1), EofToken(1)])
  {
    NotEqualMiddle(src);
    assert src[0..1] == "a" && WordKind("a") == TokenType.Identifier;
    var ts := ScanAll(src, 0, 1).tokens;
    assert ts == [Token(TokenType.Identifier, "a", Null, 1)] + ScanAll(src, 1, 1).tokens;
    assert ts + [EofToken(1)] == [ts[0], ts[1], ts[2], EofToken(1)];
  }

  /** A comment runs from `//` up to, not including, the next newline (or
      the end) and emits nothing; blanks emit nothing; a newline emits
      nothing and counts a line; a lone '/' is `Slash`. */
  lemma CommentsAndWhitespace(src: string, start: nat, line: int)
    requires start < |src|
    ensures var step := ScanStep(src, start, line);
            src[start] == '/' && start + 1 < |src| && src[start + 1] == '/' ==>
              && step.Scanned? && step.emitted == [] && step.reported == [] && step.line == line
              && start + 2 <= step.next && (step.next == |src| || src[step.next] == '\n')
              && forall k :: start + 2 <= k < step.next ==> src[k] != '\n'
    ensures var step := ScanStep(src, start, line);
            src[start] == '/' && !(start + 1 < |src| && src[start + 1] == '/') ==>
              step == Scanned([Token(Slash, "/", Null, line)], start + 1, line, [])
    ensures src[start] in " \r\t" ==> ScanStep(src, start, line) == Scanned([], start + 1, line, [])
    ensures src[start] == '\n' ==> ScanStep(src, start, line) == Scanned([], start + 1, line + 1, [])
  {
    if src[start] == '/' && start + 1 < |src| {
      FirstFromSkips(src, start + 2, '\n');
    }
    assert src[start..start + 1] == [src[start]];
  }

  /** A digit starts a number token whose lexeme is also its value.  The
      lexeme is a maximal digit run, optionally followed by a '.' and a
      second maximal digit run; the '.' is taken only when a digit follows
      it. */
  lemma NumberScan(src: string, start: nat, line: int)
    requires start < |src| && IsDigit(src[start])
    ensures var step := ScanStep(src, start, line);
            && step.Scanned? && step.line == line && step.reported == []
            && step.emitted == [Token(TokenType.Number, src[start..step.next], Num(src[start..step.next]), line)]
    ensures var end := ScanStep(src, start, line).next;
            && !(end < |src| && IsDigit(src[end]))
            && ( || ((forall k :: start <= k < end ==> IsDigit(src[k]))
                     && !(end + 1 < |src| && src[end] == '.' && IsDigit(src[end + 1])))
                 || (exists dot :: start < dot < end - 1 && src[dot] == '.'
                       && forall k :: start <= k < end && k != dot ==> IsDigit(src[k])))
  {
    var whole := DigitsEnd(src, start + 1);
    var end := NumberEnd(src, start + 1);
    DigitsEndDigits(src, start + 1);
    if end != whole {
      DigitsEndDigits(src, whole + 1);
      assert src[whole] == '.';
    }
  }

  /** A letter or '_' starts an identifier: the maximal run of letters,
      digits and '_', whose kind is the keyword table's entry for it, or
      `Identifier` when it is not in the table. */
  lemma IdentifierScan(src: string, start: nat, line: int)
    requires start < |src| && IsAlpha(src[start])
    ensures var step := ScanStep(src, start, line);
            var text := src[start..step.next];
            && step.Scanned? && step.line == line && step.reported == []
            && step.emitted == [Token(if text in Keywords then Keywords[text] else TokenType.Identifier, text, Null, line)]
            && (forall k :: start <= k < step.next ==> IsAlphaNumeric(src[k]))
            && !(step.next < |src| && IsAlphaNumeric(src[step.next]))
  {
    IdentifierEndAlphaNumeric(src, start + 1);
  }

  /** `break` is not in the keyword table: it scans as an identifier. */
  lemma BreakScansAsIdentifier(src: string, start: nat, line: int)
    requires start + 5 <= |src| && src[start..start + 5] == "break"
    requires start + 5 == |src| || !IsAlphaNumeric(src[start + 5])
    ensures ScanStep(src, start, line) == Scanned([Token(TokenType.Identifier, "break", Null, line)], start + 5, line, [])
  {
    assert src[start] == "break"[0];
    assert forall k :: start + 1 <= k < start + 5 ==> src[k] == "break"[k - start];
    IdentifierEndExact(src, start + 1, start + 5);
  }

  /** A '"' starts a string literal.  When a closing '"' follows, the token
      spans both quotes, its literal is the text strictly between them, and
      the line has moved past the newlines inside; otherwise the rest of the
      source is consumed with the report "Unterminated string." at the line
      reached and no token. */
  lemma StringScan(src: string, start: nat, line: int)
    requires start < |src| && src[start] == '"'
    ensures var step := ScanStep(src, start, line);
            var close := step.next - 1;
            (exists k :: start < k < |src| && src[k] == '"') ==>
              && step.Scanned? && start < close && src[close] == '"'
              && (forall k :: start < k < close ==> src[k] != '"')
              && step.line == line + NewlinesIn(src, start + 1, close)
              && step.reported == []
              && step.emitted == [Token(String, src[start..close + 1], Text(src[start + 1..close]), step.line)]
    ensures var step := ScanStep(src, start, line);
            (forall k :: start < k < |src| ==> src[k] != '"') ==>
              && step.Scanned? && step.next == |src| && step.emitted == []
              && step.line == line + NewlinesIn(src, start + 1, |src|)
              && step.reported == [LineError(step.line, "Unterminated string.")]
  {
    FirstFromSkips(src, start + 1, '"');
  }

  /** A character with no case in `ScanToken`, such as '#', '%', '?' or
      ':', stops the pass without a token or a report. */
  lemma UnexpectedCharacters(src: string, start: nat, line: int)
    requires start < |src|
    ensures ScanStep(src, start, line).UnexpectedChar?
            <==> src[start] !in "(){},.-+;*!=<>/ \r\t\n\"" && !IsDigit(src[start]) && !IsAlpha(src[start])
    ensures src[start] in "#%?:" ==> ScanStep(src, start, line).UnexpectedChar?
  {
    if src[start] !in "(){},.-+;*!=<>/ \r\t\n\"" {
      assert ScanStep(src, start, line) == WordStep(src, start, line);
    }
  }

  /** A pass that meets such a character after blanks fails just past it
      with no token and no report: the exception is thrown before the
      character could be reported. */
  lemma {:induction false} ScanFailsAtUnexpected(src: string, pos: nat, line: int, j: nat)
    requires pos <= j < |src|
    requires src[j] in "#%?:"
    requires forall k :: pos <= k < j ==> src[k] == ' '
    ensures !ScanAll(src, pos, line).ok && ScanAll(src, pos, line).stop == j + 1
    ensures ScanAll(src, pos, line).tokens == [] && ScanAll(src, pos, line).reports == []
    decreases j - pos
  {
    UnexpectedCharacters(src, j, line);
    if pos < j {
      ScanFailsAtUnexpected(src, pos + 1, line, j);
    }
  }

  // ---------------------------------------------------------------------
  // Concrete scans

  /** `src` is the scanner test's declaration `var LoxVersion = 0.1;`,
      spelled out position by position so that the proofs below reason
      about single characters. */
  predicate SpellsDeclaration(src: string) {
    |src| == 21 && src[0] == 'v' && src[1] == 'a' && src[2] == 'r' && src[3] == ' ' && src[4] == 'L' && src[5] == 'o' && src[6] == 'x' && src[7] == 'V' && src[8] == 'e' && src[9] == 'r' && src[10] == 's' && src[11] == 'i' && src[12] == 'o' && src[13] == 'n' && src[14] == ' ' && src[15] == '=' && src[16] == ' ' && src[17] == '0' && src[18] == '.' && src[19] == '1' && src[20] == ';'
  }

  /** From the number on: `0.1` (the '.' is taken because a digit follows)
      and `;`. */
  lemma DeclarationTail(src: string)
    requires SpellsDeclaration(src)
    ensures ScanAll(src, 17, 1) == Run([
      Token(TokenType.Number, "0.1", Num("0.1"), 1), Token(Semicolon, ";", Null, 1)], [], 21, 1, true)
  {
    assert src[20..21] == ";";
    assert ScanAll(src, 20, 1) == Run([Token(Semicolon, ";", Null, 1)], [], 21, 1, true);
    assert DigitsEnd(src, 18) == 18 && DigitsEnd(src, 19) == 20;
    assert NumberEnd(src, 18) == 20 && src[17..20] == "0.1";
  }

  /** From the blank before `=` on. */
  lemma DeclarationEquals(src: string)
    requires SpellsDeclaration(src)
    ensures ScanAll(src, 14, 1) == Run([Token(Equal, "=", Null, 1),
      Token(TokenType.Number, "0.1", Num("0.1"), 1), Token(Semicolon, ";", Null, 1)], [], 21, 1, true)
  {
    DeclarationTail(src);
    assert ScanAll(src, 16, 1) == ScanAll(src, 17, 1);
    assert src[15..16] == "=";
  }

  /** The step at the name: `LoxVersion` is not a keyword. */
  lemma DeclarationNameStep(src: string)
    requires SpellsDeclaration(src)
    ensures ScanStep(src, 4, 1) == Scanned([Token(TokenType.Identifier, "LoxVersion", Null, 1)], 14, 1, [])
  {
    IdentifierEndExact(src, 5, 14);
    assert src[4..14] == "LoxVersion";
    assert WordKind("LoxVersion") == TokenType.Identifier;
  }

  /** From the blank before the name on. */
  lemma DeclarationName(src: string)
    requires SpellsDeclaration(src)
    ensures ScanAll(src, 3, 1) == Run([
      Token(TokenType.Identifier, "LoxVersion", Null, 1), Token(Equal, "=", Null, 1),
      Token(TokenType.Number, "0.1", Num("0.1"), 1), Token(Semicolon, ";", Null, 1)], [], 21, 1, true)
  {
    DeclarationEquals(src);
    DeclarationNameStep(src);
  }

  /** The step at the start: `var` is a keyword. */
  lemma DeclarationVarStep(src: string)
    requires SpellsDeclaration(src)
    ensures ScanStep(src, 0, 1) == Scanned([Token(Var, "var", Null, 1)], 3, 1, [])
  {
    IdentifierEndExact(src, 1, 3);
    assert src[0..3] == "var";
    assert WordKind("var") == Var;
  }

  /** The whole declaration: `var` is a keyword. */
  lemma DeclarationFront(src: string)
    requires SpellsDeclaration(src)
    ensures ScanAll(src, 0, 1) == Run([Token(Var, "var", Null, 1),
      Token(TokenType.Identifier, "LoxVersion", Null, 1), Token(Equal, "=", Null, 1),
      Token(TokenType.Number, "0.1", Num("0.1"), 1), Token(Semicolon, ";", Null, 1)], [], 21, 1, true)
  {
    DeclarationName(src);
    DeclarationVarStep(src);
  }

  /** The scanner test's declaration scans to `var`, an identifier, `=`, the
      number 0.1 (kept as its lexeme), `;` and `Eof` on line 1. */
  lemma DeclarationScan(src: string)
    requires SpellsDeclaration(src)
    ensures Scan(src) == Success([
      Token(Var, "var", Null, 1), Token(TokenType.Identifier, "LoxVersion", Null, 1),
      Token(Equal, "=", Null, 1), Token(TokenType.Number, "0.1", Num("0.1"), 1),
      Token(Semicolon, ";", Null, 1), EofToken(1)])
  {
    DeclarationFront(src);
    var ts := ScanAll(src, 0, 1).tokens;
    assert ts + [EofToken(1)] == [ts[0], ts[1], ts[2], ts[3], ts[4], EofToken(1)];
  }
}

/** The reference definition of the scanner: what one scan step does from a
    given position and line, and what a whole pass produces.  The `Scanner`
    class is proved to compute exactly this. */
module ScanSpec {
  import opened Results
  import opened Tokens
  import opened Diagnostics

  /** The keyword table.  `break` is missing from it, so `break` scans as an
      identifier. */
  const Keywords: map<string, TokenType> := map[
    "and" := And, "class" := Class, "else" := Else, "false" := False,
    "for" := For, "fun" := Fun, "if" := If, "nil" := Nil, "or" := Or,
    "print" := Print, "return" := Return, "super" := SuperClass,
    "this" := This, "true" := True, "var" := Var, "while" := While]

  predicate IsDigit(c: char) {
    '0' <= c <= '9'
  }

  predicate IsAlpha(c: char) {
    'a' <= c <= 'z' || 'A' <= c <= 'Z' || c == '_'
  }

  predicate IsAlphaNumeric(c: char) {
    IsAlpha(c) || IsDigit(c)
  }

  /** What `Peek` (at `i == current`) and `PeekNext` (at `i == current + 1`)
      see: the character at `i`, or '\0' past the end. */
  function CharAt(src: string, i: nat): (c: char)
    ensures i < |src| ==> c == src[i]
    ensures i >= |src| ==> c == '\0'
  {
    if i < |src| then src[i] else '\0'
  }

  /** What `Match(expected)` tests at `i == current`. */
  predicate MatchesAt(src: string, i: nat, expected: char) {
    i < |src| && src[i] == expected
  }

  /** The end of the maximal run of digits from `i`. */
  function DigitsEnd(src: string, i: nat): (j: nat)
    requires i <= |src|
    ensures i <= j <= |src|
    ensures j == |src| || !IsDigit(src[j])
    decreases |src| - i
  {
    if i < |src| && IsDigit(src[i]) then DigitsEnd(src, i + 1) else i
  }

  /** The first position at or after `i` holding `c`, or the end. */
  function FirstFrom(src: string, i: nat, c: char): (j: nat)
    requires i <= |src|
    ensures i <= j <= |src|
    ensures j < |src| ==> src[j] == c
    decreases |src| - i
  {
    if i < |src| && src[i] != c then FirstFrom(src, i + 1, c) else i
  }

  /** Where `Identifier` stops, given the position after the first letter. */
  function IdentifierEnd(src: string, i: nat): (j: nat)
    requires i <= |src|
    ensures i <= j <= |src|
    ensures j == |src| || !IsAlphaNumeric(src[j])
    decreases |src| - i
  {
    if i < |src| && IsAlphaNumeric(src[i]) then IdentifierEnd(src, i + 1) else i
  }

  /** Where `Number` stops, given the position after the first digit: a
      maximal digit run, then a '.' and a second maximal digit run only when
      a digit follows the '.'. */
  function NumberEnd(src: string, i: nat): (j: nat)
    requires i <= |src|
    ensures i <= j <= |src|
  {
    var whole := DigitsEnd(src, i);
    if CharAt(src, whole) == '.' && IsDigit(CharAt(src, whole + 1)) then
      DigitsEnd(src, whole + 1)
    else
      whole
  }

  /** The kind an identifier's text scans as. */
  function WordKind(text: string): (k: TokenType)
    ensures text in Keywords ==> k == Keywords[text]
    ensures text !in Keywords ==> k == Identifier
  {
    if text in Keywords then Keywords[text] else Identifier
  }

  /** The number of newline characters in `src[lo..hi]`. */
  function NewlinesIn(src: string, lo: nat, hi: nat): nat
    requires lo <= hi <= |src|
    decreases hi
  {
    if hi == lo then 0 else NewlinesIn(src, lo, hi - 1) + if src[hi - 1] == '\n' then 1 else 0
  }

  /** The outcome of one `ScanToken` call started at `start`: the tokens it
      appends (none or one), where `current` and `line` end up, and what it
      reports; or the unexpected-character exception. */
  datatype Step =
    | Scanned(emitted: seq<Token>, next: nat, line: int, reported: seq<Report>)
    | UnexpectedChar

  /** `AddToken` for the lexeme `src[start..end]`. */
  function Emit(src: string, start: nat, end: nat, kind: TokenType, literal: Value, line: int): Step
    requires start <= end <= |src|
  {
    Scanned([Token(kind, src[start..end], literal, line)], end, line, [])
  }

  /** A one- or two-character operator: `second` when '=' follows. */
  function OneOrTwo(src: string, start: nat, line: int, single: TokenType, second: TokenType): Step
    requires start < |src|
  {
    if MatchesAt(src, start + 1, '=') then Emit(src, start, start + 2, second, Null, line)
    else Emit(src, start, start + 1, single, Null, line)
  }

  /** `ScanToken` started with `current == start`. */
  function ScanStep(src: string, start: nat, line: int): (r: Step)
    requires start < |src|
    ensures r.Scanned? ==> start < r.next <= |src| && |r.emitted| <= 1
  {
    var cur := start + 1;
    match src[start]
    case '(' => Emit(src, start, cur, LeftParenthesis, Null, line)
    case ')' => Emit(src, start, cur, RightParenthesis, Null, line)
    case '{' => Emit(src, start, cur, LeftBrace, Null, line)
    case '}' => Emit(src, start, cur, RightBrace, Null, line)
    case ',' => Emit(src, start, cur, Comma, Null, line)
    case '.' => Emit(src, start, cur, Dot, Null, line)
    case '-' => Emit(src, start, cur, Minus, Null, line)
    case '+' => Emit(src, start, cur, Plus, Null, line)
    case ';' => Emit(src, start, cur, Semicolon, Null, line)
    case '*' => Emit(src, start, cur, Star, Null, line)
    case '!' => OneOrTwo(src, start, line, Bang, Equal)
    case '=' => OneOrTwo(src, start, line, Equal, EqualEqual)
    case '<' => OneOrTwo(src, start, line, Less, LessEqual)
    case '>' => OneOrTwo(src, start, line, Greater, GreaterEqual)
    case '/' => SlashStep(src, start, line)
    case ' ' => Scanned([], cur, line, [])
    case '\r' => Scanned([], cur, line, [])
    case '\t' => Scanned([], cur, line, [])
    case '\n' => Scanned([], cur, line + 1, [])
    case '"' => StringStep(src, start, line)
    case _ => WordStep(src, start, line)
  }

  /** A '/' at `start`: a comment running to the end of the line, or `Slash`. */
  function SlashStep(src: string, start: nat, line: int): (r: Step)
    requires start < |src|
    ensures r.Scanned? ==> start < r.next <= |src| && |r.emitted| <= 1
  {
    if MatchesAt(src, start + 1, '/') then Scanned([], FirstFrom(src, start + 2, '\n'), line, [])
    else Emit(src, start, start + 1, Slash, Null, line)
  }

  /** A '"' at `start`: a string literal up to the next '"', counting the
      newlines inside it, or the unterminated-string report. */
  function StringStep(src: string, start: nat, line: int): (r: Step)
    requires start < |src|
    ensures r.Scanned? ==> start < r.next <= |src| && |r.emitted| <= 1
  {
    var close := FirstFrom(src, start + 1, '"');
    var atClose := line + NewlinesIn(src, start + 1, close);
    if close == |src| then Scanned([], close, atClose, [LineError(atClose, "Unterminated string.")])
    else Emit(src, start, close + 1, String, Text(src[start + 1..close]), atClose)
  }

  /** Any other character at `start`: a number, an identifier or keyword,
      or the unexpected-character exception. */
  function WordStep(src: string, start: nat, line: int): (r: Step)
    requires start < |src|
    ensures r.Scanned? ==> start < r.next <= |src| && |r.emitted| <= 1
  {
    var c := src[start];
    if IsDigit(c) then
      var end := NumberEnd(src, start + 1);
      Emit(src, start, end, Number, Num(src[start..end]), line)
    else if IsAlpha(c) then
      var end := IdentifierEnd(src, start + 1);
      Emit(src, start, end, WordKind(src[start..end]), Null, line)
    else UnexpectedChar
  }

  /** The rest of a pass from `pos` at line `line`: the tokens and reports it
      adds, where `current` and `line` stop, and whether it ran to the end
      (`ok`) or stopped at an unexpected character. */
  datatype Run = Run(tokens: seq<Token>, reports: seq<Report>, stop: nat, line: int, ok: bool)

  /** The loop of `ScanTokens` from `pos`. */
  function ScanAll(src: string, pos: nat, line: int): (r: Run)
    requires pos <= |src|
    ensures pos <= r.stop <= |src|
    ensures r.ok ==> r.stop == |src|
    decreases |src| - pos
  {
    if pos == |src| then Run([], [], pos, line, true)
    else
      match ScanStep(src, pos, line)
      case UnexpectedChar => Run([], [], pos + 1, line, false)
      case Scanned(emitted, next, l, reported) =>
        var rest := ScanAll(src, next, l);
        Run(emitted + rest.tokens, reported + rest.reports, rest.stop, rest.line, rest.ok)
  }

  /** A run with `tokens` and `reports` put in front of its own. */
  function Prefixed(tokens: seq<Token>, reports: seq<Report>, run: Run): Run {
    Run(tokens + run.tokens, reports + run.reports, run.stop, run.line, run.ok)
  }

  /** One successful step moves its output from the rest of the run to the
      part already done: the loop invariant of `ScanTokens`. */
  lemma ScanAllAfterStep(src: string, pos: nat, line: int, done: seq<Token>, said: seq<Report>)
    requires pos < |src| && ScanStep(src, pos, line).Scanned?
    ensures var step := ScanStep(src, pos, line);
            Prefixed(done, said, ScanAll(src, pos, line))
            == Prefixed(done + step.emitted, said + step.reported, ScanAll(src, step.next, step.line))
  {
    var step := ScanStep(src, pos, line);
    var rest := ScanAll(src, step.next, step.line);
    assert ScanAll(src, pos, line) == Prefixed(step.emitted, step.reported, rest);
    assert done + (step.emitted + rest.tokens) == (done + step.emitted) + rest.tokens;
    assert said + (step.reported + rest.reports) == (said + step.reported) + rest.reports;
  }

  /** The token `ScanTokens` appends once the source is exhausted. */
  function EofToken(line: int): Token {
    Token(Eof, "", Null, line)
  }

  /** The exception a pass throws at an unexpected character. */
  datatype ScanError = UnexpectedCharacter

  /** A whole pass of a fresh scanner over `src`. */
  function Scan(src: string): (r: Result<seq<Token>, ScanError>)
    ensures r.Success? <==> ScanAll(src, 0, 1).ok
    ensures r.Success? ==> && |r.value| >= 1
                           && r.value[..|r.value| - 1] == ScanAll(src, 0, 1).tokens
                           && r.value[|r.value| - 1] == Token(Eof, "", Null, ScanAll(src, 0, 1).line)
  {
    var run := ScanAll(src, 0, 1);
    if run.ok then Success(run.tokens + [EofToken(run.line)]) else Failure(UnexpectedCharacter)
  }

  /** The reports a whole pass of a fresh scanner makes. */
  function ScanReports(src: string): (r: seq<Report>)
    ensures OnlyUnterminated(r)
  {
    PassReports(src, 0, 1);
    ScanAll(src, 0, 1).reports
  }

  /** Every report is the unterminated-string report at some line. */
  predicate OnlyUnterminated(reports: seq<Report>) {
    forall i :: 0 <= i < |reports| ==> reports[i].LineError? && reports[i].message == "Unterminated string."
  }

  /** The only report a pass makes is the unterminated-string one. */
  lemma {:induction false} PassReports(src: string, pos: nat, line: int)
    requires pos <= |src|
    ensures OnlyUnterminated(ScanAll(src, pos, line).reports)
    decreases |src| - pos
  {
    if pos < |src| {
      var step := ScanStep(src, pos, line);
      if step.Scanned? {
        PassReports(src, step.next, step.line);
        var rest := ScanAll(src, step.next, step.line).reports;
        assert ScanAll(src, pos, line).reports == step.reported + rest;
        assert OnlyUnterminated(step.reported);
        forall i | 0 <= i < |step.reported + rest|
          ensures (step.reported + rest)[i].LineError? && (step.reported + rest)[i].message == "Unterminated string."
        {
          if i >= |step.reported| {
            assert (step.reported + rest)[i] == rest[i - |step.reported|];
          }
        }
      }
    }
  }
}

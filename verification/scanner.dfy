/** The character-level scanner: maximal-munch operators, comments, words,
    numbers and strings, with line counting (src/compiler/mod.rs). The
    `Peekable<Chars>` of the source is a string and an index into it. */
module Scanning {
  import opened Wrappers
  import opened Tokens

  /** `pos` is the index of the next unread character. */
  datatype Scanner = Scanner(source: string, pos: nat, line: nat)

  /** A token together with the scanner after it. */
  datatype Scanned = Scanned(token: Token, scanner: Scanner)

  predicate Valid(sc: Scanner) {
    sc.pos <= |sc.source|
  }

  /** A scanner at the start of `input`, on line 0. */
  function NewScanner(input: string): (sc: Scanner)
    ensures Valid(sc) && sc.source == input && sc.pos == 0 && sc.line == 0
  {
    Scanner(input, 0, 0)
  }

  // Character classes, ASCII only.

  predicate IsLetter(c: char) {
    ('a' <= c <= 'z') || ('A' <= c <= 'Z') || c == '_'
  }

  predicate IsDigit(c: char) {
    '0' <= c <= '9'
  }

  predicate IsWhitespace(c: char) {
    c == ' ' || c == '\t' || c == '\n' || c == '\r' || c == 11 as char || c == 12 as char
  }

  /** The number of line breaks in `s`. */
  function Newlines(s: string): nat
    decreases |s|
  {
    if |s| == 0 then 0 else (if s[0] == '\n' then 1 else 0) + Newlines(s[1..])
  }

  /** True when the next unread character is `c`. */
  predicate PeekIs(sc: Scanner, c: char) {
    sc.pos < |sc.source| && sc.source[sc.pos] == c
  }

  /** Skips the maximal run of whitespace, counting the line breaks in it. */
  function SkipWhitespace(sc: Scanner): (r: Scanner)
    requires Valid(sc)
    ensures r.source == sc.source && sc.pos <= r.pos <= |sc.source|
    ensures forall i :: sc.pos <= i < r.pos ==> IsWhitespace(sc.source[i])
    ensures r.pos == |sc.source| || !IsWhitespace(sc.source[r.pos])
    ensures r.line == sc.line + Newlines(sc.source[sc.pos..r.pos])
    decreases |sc.source| - sc.pos
  {
    if sc.pos == |sc.source| || !IsWhitespace(sc.source[sc.pos]) then sc
    else
      var c := sc.source[sc.pos];
      var r := SkipWhitespace(Scanner(sc.source, sc.pos + 1, if c == '\n' then sc.line + 1 else sc.line));
      assert sc.source[sc.pos..r.pos][1..] == sc.source[sc.pos + 1..r.pos];
      r
  }

  /** Skips the rest of a `//` comment: through the first line break, which is
      consumed, or to the end of input. Either way one line is counted. */
  function SkipComment(sc: Scanner): (r: Scanner)
    requires Valid(sc)
    ensures r.source == sc.source && r.line == sc.line + 1
    ensures sc.pos <= r.pos <= |sc.source|
    ensures
      || (r.pos == |sc.source| && forall i :: sc.pos <= i < r.pos ==> sc.source[i] != '\n')
      || (sc.pos < r.pos && sc.source[r.pos - 1] == '\n'
          && forall i :: sc.pos <= i < r.pos - 1 ==> sc.source[i] != '\n')
    decreases |sc.source| - sc.pos
  {
    if sc.pos == |sc.source| then sc.(line := sc.line + 1)
    else if sc.source[sc.pos] == '\n' then Scanner(sc.source, sc.pos + 1, sc.line + 1)
    else SkipComment(sc.(pos := sc.pos + 1))
  }

  datatype CharClass = WordChars | Digits

  predicate InClass(k: CharClass, c: char) {
    match k
    case WordChars => IsLetter(c) || IsDigit(c)
    case Digits => IsDigit(c)
  }

  /** The end of the maximal run of class `k` starting at `i`. */
  function RunEnd(s: string, i: nat, k: CharClass): (e: nat)
    requires i <= |s|
    ensures i <= e <= |s|
    ensures forall j :: i <= j < e ==> InClass(k, s[j])
    ensures e == |s| || !InClass(k, s[e])
    decreases |s| - i
  {
    if i < |s| && InClass(k, s[i]) then RunEnd(s, i + 1, k) else i
  }

  /** A word: `first`, already read, and the maximal run of letters, `_` and
      digits after it. */
  function ReadWord(sc: Scanner, first: char): (r: (string, Scanner))
    requires Valid(sc)
    ensures r.1 == sc.(pos := RunEnd(sc.source, sc.pos, WordChars))
    ensures r.0 == [first] + sc.source[sc.pos..r.1.pos]
  {
    var e := RunEnd(sc.source, sc.pos, WordChars);
    ([first] + sc.source[sc.pos..e], sc.(pos := e))
  }

  function DigitValue(c: char): nat
    requires IsDigit(c)
  {
    c as int - '0' as int
  }

  predicate AllDigits(s: string) {
    forall i :: 0 <= i < |s| ==> IsDigit(s[i])
  }

  /** The value of a decimal numeral. */
  function DecimalValue(s: string): nat
    requires AllDigits(s)
    decreases |s|
  {
    if |s| == 0 then 0 else DecimalValue(s[..|s| - 1]) * 10 + DigitValue(s[|s| - 1])
  }

  /** The numeral `first` starts is a float, or its value fits an `i32`: the
      source parses an integer literal into an `i32` and panics otherwise. */
  predicate NumberFits(sc: Scanner, first: char)
    requires Valid(sc) && IsDigit(first)
  {
    var e := RunEnd(sc.source, sc.pos, Digits);
    (e < |sc.source| && sc.source[e] == '.')
    || DecimalValue([first] + sc.source[sc.pos..e]) <= I32_MAX
  }

  /** A number: the maximal digit run after `first`; if a `.` follows, the dot
      and the digit run after it are consumed too, making a float. */
  function ReadNumber(sc: Scanner, first: char): (r: Scanned)
    requires Valid(sc) && IsDigit(first) && NumberFits(sc, first)
    ensures r.scanner.source == sc.source && r.scanner.line == sc.line
    ensures Valid(r.scanner) && sc.pos <= r.scanner.pos
    ensures var e := RunEnd(sc.source, sc.pos, Digits);
      if e < |sc.source| && sc.source[e] == '.' then
        && r.scanner.pos == RunEnd(sc.source, e + 1, Digits)
        && r.token == FloatLiteral([first] + sc.source[sc.pos..r.scanner.pos])
      else
        && r.scanner.pos == e
        && r.token.IntegerLiteral?
        && r.token.value == DecimalValue([first] + sc.source[sc.pos..e])
  {
    var e := RunEnd(sc.source, sc.pos, Digits);
    if e < |sc.source| && sc.source[e] == '.' then
      var f := RunEnd(sc.source, e + 1, Digits);
      Scanned(FloatLiteral([first] + sc.source[sc.pos..f]), sc.(pos := f))
    else
      Scanned(IntegerLiteral(DecimalValue([first] + sc.source[sc.pos..e])), sc.(pos := e))
  }

  /** The index of the first `"` at or after `i`. */
  function QuoteAt(s: string, i: nat): (q: nat)
    requires i <= |s| && '"' in s[i..]
    ensures i <= q < |s| && s[q] == '"'
    ensures forall j :: i <= j < q ==> s[j] != '"'
    decreases |s| - i
  {
    if s[i] == '"' then i
    else
      assert s[i..] == [s[i]] + s[i + 1..];
      QuoteAt(s, i + 1)
  }

  /** A string literal, after its opening `"`: every character up to the next
      `"`, which is consumed and not included. There are no escapes, and line
      breaks inside are not counted. The source panics on an unterminated
      string, hence the requirement of a closing quote. */
  function ReadString(sc: Scanner): (r: Scanned)
    requires Valid(sc) && '"' in sc.source[sc.pos..]
    ensures r.scanner.source == sc.source && r.scanner.line == sc.line
    ensures Valid(r.scanner) && sc.pos < r.scanner.pos
    ensures sc.source[r.scanner.pos - 1] == '"'
    ensures r.token == StringLiteral(sc.source[sc.pos..r.scanner.pos - 1])
    ensures '"' !in r.token.text
  {
    var q := QuoteAt(sc.source, sc.pos);
    Scanned(StringLiteral(sc.source[sc.pos..q]), sc.(pos := q + 1))
  }

  /** The token starting at the unread character can be read without a panic:
      a string is closed, and an integer literal fits an `i32`. */
  predicate CharSafe(ws: Scanner)
    requires Valid(ws) && ws.pos < |ws.source|
  {
    var c := ws.source[ws.pos];
    && (c == '"' ==> '"' in ws.source[ws.pos + 1..])
    && (IsDigit(c) ==> NumberFits(ws.(pos := ws.pos + 1), c))
  }

  /** The inputs on which `NextToken` does not panic. */
  predicate ScanSafe(sc: Scanner)
    requires Valid(sc)
  {
    var ws := SkipWhitespace(sc);
    ws.pos < |ws.source| ==> CharSafe(ws)
  }

  /** The state after reading the second character of a two-character operator. */
  function Take(sc: Scanner): Scanner {
    sc.(pos := sc.pos + 1)
  }

  /** The token starting at the unread character of `ws`. Two-character
      operators are matched greedily; otherwise the one-character token is
      returned and the following character is left unread. */
  function ScanAt(ws: Scanner): (r: Scanned)
    requires Valid(ws) && ws.pos < |ws.source| && CharSafe(ws)
    ensures r.scanner.source == ws.source && Valid(r.scanner)
    ensures ws.pos < r.scanner.pos
    ensures r.token != Comment ==> r.scanner.line == ws.line
    ensures r.token == Comment ==> r.scanner.line == ws.line + 1
  {
    var c := ws.source[ws.pos];
    var s1 := ws.(pos := ws.pos + 1);
    if IsLetter(c) then
      var w := ReadWord(s1, c);
      Scanned(Lookup(w.0), w.1)
    else if IsDigit(c) then ReadNumber(s1, c)
    else if c == '"' then ReadString(s1)
    else Symbol(c, s1)
  }

  /** The token starting with a character that is not a letter, a digit or a
      quote, `s1` being the state after it. */
  function Symbol(c: char, s1: Scanner): (r: Scanned)
    requires Valid(s1) && 0 < s1.pos
    ensures r.scanner.source == s1.source && Valid(r.scanner)
    ensures s1.pos <= r.scanner.pos
    ensures r.token != Comment ==> r.scanner.line == s1.line
    ensures r.token == Comment ==> r.scanner.line == s1.line + 1
  {
    match c
    case '+' => Scanned(Add, s1)
    case '-' => Scanned(Subtract, s1)
    case '*' => Scanned(Multiply, s1)
    case '/' => if PeekIs(s1, '/') then Scanned(Comment, SkipComment(s1)) else Scanned(Divide, s1)
    case ',' => Scanned(Comma, s1)
    case '.' => if PeekIs(s1, '.') then Scanned(DotDot, Take(s1)) else Scanned(Dot, s1)
    case '(' => Scanned(LeftParenthesis, s1)
    case ')' => Scanned(RightParenthesis, s1)
    case '{' => Scanned(LeftBrace, s1)
    case '}' => Scanned(RightBrace, s1)
    case ';' => Scanned(Semicolon, s1)
    case ':' => Scanned(Colon, s1)
    case '^' => Scanned(Xor, s1)
    case '%' => Scanned(Modulo, s1)
    case '|' => if PeekIs(s1, '|') then Scanned(LogicalOr, Take(s1)) else Scanned(Or, s1)
    case '&' => if PeekIs(s1, '&') then Scanned(LogicalAnd, Take(s1)) else Scanned(And, s1)
    case '=' => if PeekIs(s1, '=') then Scanned(Equality, Take(s1)) else Scanned(Assign, s1)
    case '!' => if PeekIs(s1, '=') then Scanned(NotEquality, Take(s1)) else Scanned(Bang, s1)
    case '<' =>
      if PeekIs(s1, '=') then Scanned(LessThanEqual, Take(s1))
      else if PeekIs(s1, '<') then Scanned(ShiftLeft, Take(s1))
      else Scanned(LessThan, s1)
    case '>' =>
      if PeekIs(s1, '=') then Scanned(GreaterThanEqual, Take(s1))
      else if PeekIs(s1, '>') then Scanned(ShiftRight, Take(s1))
      else Scanned(GreaterThan, s1)
    case _ => Scanned(Illegal, s1)
  }

  /** The next token, after skipping whitespace; end of input gives `EOF`. */
  function NextToken(sc: Scanner): (r: Scanned)
    requires Valid(sc) && ScanSafe(sc)
    ensures r.scanner.source == sc.source && Valid(r.scanner)
    ensures r.token != EOF ==> SkipWhitespace(sc).pos < r.scanner.pos
    ensures r.token != Comment ==> r.scanner.line == SkipWhitespace(sc).line
    ensures r.token == Comment ==> r.scanner.line == SkipWhitespace(sc).line + 1
  {
    var ws := SkipWhitespace(sc);
    if ws.pos == |ws.source| then Scanned(EOF, ws) else ScanAt(ws)
  }

  // ---------------------------------------------------------------------
  // Reference tables and properties of the scanner
  // ---------------------------------------------------------------------

  /** The two-character operators, as an independent table. */
  function Pair(c: char, d: char): Option<Token> {
    if c == '=' && d == '=' then Some(Equality)
    else if c == '!' && d == '=' then Some(NotEquality)
    else if c == '<' && d == '=' then Some(LessThanEqual)
    else if c == '>' && d == '=' then Some(GreaterThanEqual)
    else if c == '<' && d == '<' then Some(ShiftLeft)
    else if c == '>' && d == '>' then Some(ShiftRight)
    else if c == '|' && d == '|' then Some(LogicalOr)
    else if c == '&' && d == '&' then Some(LogicalAnd)
    else if c == '.' && d == '.' then Some(DotDot)
    else None
  }

  /** The one-character tokens, as an independent table. */
  function Single(c: char): Option<Token> {
    if c == '+' then Some(Add)
    else if c == '-' then Some(Subtract)
    else if c == '*' then Some(Multiply)
    else if c == '/' then Some(Divide)
    else if c == ',' then Some(Comma)
    else if c == '.' then Some(Dot)
    else if c == '(' then Some(LeftParenthesis)
    else if c == ')' then Some(RightParenthesis)
    else if c == '{' then Some(LeftBrace)
    else if c == '}' then Some(RightBrace)
    else if c == ';' then Some(Semicolon)
    else if c == ':' then Some(Colon)
    else if c == '^' then Some(Xor)
    else if c == '%' then Some(Modulo)
    else if c == '|' then Some(Or)
    else if c == '&' then Some(And)
    else if c == '=' then Some(Assign)
    else if c == '!' then Some(Bang)
    else if c == '<' then Some(LessThan)
    else if c == '>' then Some(GreaterThan)
    else None
  }

  /** The next token is end of input exactly when only whitespace is left. */
  lemma EofExactlyAtEnd(sc: Scanner)
    requires Valid(sc) && ScanSafe(sc)
    ensures NextToken(sc).token == EOF <==>
      forall j :: sc.pos <= j < |sc.source| ==> IsWhitespace(sc.source[j])
  {
    var ws := SkipWhitespace(sc);
    if ws.pos < |sc.source| {
      assert !IsWhitespace(sc.source[ws.pos]);
      NeverEof(ws);
    }
  }

  /** A token read from a character is never `EOF`. */
  lemma NeverEof(ws: Scanner)
    requires Valid(ws) && ws.pos < |ws.source| && CharSafe(ws)
    ensures ScanAt(ws).token != EOF
  {
    var c := ws.source[ws.pos];
    if IsLetter(c) {
      var w := ReadWord(ws.(pos := ws.pos + 1), c);
      assert Spelling(EOF) == None;
      assert Lookup(w.0) != EOF;
    }
  }

  /** Maximal munch: a two-character operator is read as one token. */
  lemma TwoCharacterOperator(ws: Scanner)
    requires Valid(ws) && ws.pos + 1 < |ws.source|
    requires Pair(ws.source[ws.pos], ws.source[ws.pos + 1]).Some?
    ensures CharSafe(ws)
    ensures ScanAt(ws) == Scanned(Pair(ws.source[ws.pos], ws.source[ws.pos + 1]).value, ws.(pos := ws.pos + 2))
  {
    SymbolStart(ws);
  }

  /** A one-character token not starting a two-character operator or a comment
      is read alone, and the character after it is left unread. */
  lemma OneCharacterToken(ws: Scanner)
    requires Valid(ws) && ws.pos < |ws.source| && Single(ws.source[ws.pos]).Some?
    requires ws.pos + 1 < |ws.source| ==>
      && Pair(ws.source[ws.pos], ws.source[ws.pos + 1]).None?
      && !(ws.source[ws.pos] == '/' && ws.source[ws.pos + 1] == '/')
    ensures CharSafe(ws)
    ensures ScanAt(ws) == Scanned(Single(ws.source[ws.pos]).value, ws.(pos := ws.pos + 1))
  {
    SymbolStart(ws);
  }

  /** `//` starts a comment that runs to the end of the line. */
  lemma CommentToEndOfLine(ws: Scanner)
    requires Valid(ws) && ws.pos + 1 < |ws.source|
    requires ws.source[ws.pos] == '/' && ws.source[ws.pos + 1] == '/'
    ensures CharSafe(ws)
    ensures ScanAt(ws) == Scanned(Comment, SkipComment(ws.(pos := ws.pos + 1)))
  {
    SymbolStart(ws);
  }

  /** A character other than a letter, a digit or a quote is read by `Symbol`. */
  lemma SymbolStart(ws: Scanner)
    requires Valid(ws) && ws.pos < |ws.source|
    requires var c := ws.source[ws.pos]; !IsLetter(c) && !IsDigit(c) && c != '"'
    ensures CharSafe(ws)
    ensures ScanAt(ws) == Symbol(ws.source[ws.pos], ws.(pos := ws.pos + 1))
  {
  }

  /** A letter starts a word: the maximal run of word characters, classified by
      the keyword table. */
  lemma WordToken(ws: Scanner)
    requires Valid(ws) && ws.pos < |ws.source| && IsLetter(ws.source[ws.pos])
    ensures CharSafe(ws)
    ensures var e := RunEnd(ws.source, ws.pos + 1, WordChars);
      && ScanAt(ws).token == Lookup(ws.source[ws.pos..e])
      && ScanAt(ws).scanner == ws.(pos := e)
  {
    var c := ws.source[ws.pos];
    var e := RunEnd(ws.source, ws.pos + 1, WordChars);
    var w := ReadWord(ws.(pos := ws.pos + 1), c);
    assert w.0 == ws.source[ws.pos..e];
    LetterStartsWord(ws);
  }

  lemma LetterStartsWord(ws: Scanner)
    requires Valid(ws) && ws.pos < |ws.source| && IsLetter(ws.source[ws.pos])
    ensures CharSafe(ws)
    ensures var w := ReadWord(ws.(pos := ws.pos + 1), ws.source[ws.pos]);
      ScanAt(ws) == Scanned(Lookup(w.0), w.1)
  {
  }

  /** A digit run not followed by `.` is an integer literal of its decimal
      value. */
  lemma IntegerToken(ws: Scanner)
    requires Valid(ws) && ws.pos < |ws.source| && IsDigit(ws.source[ws.pos]) && CharSafe(ws)
    requires var e := RunEnd(ws.source, ws.pos, Digits);
      e == |ws.source| || ws.source[e] != '.'
    ensures var e := RunEnd(ws.source, ws.pos, Digits);
      && ScanAt(ws).token.IntegerLiteral?
      && ScanAt(ws).token.value == DecimalValue(ws.source[ws.pos..e])
      && ScanAt(ws).scanner == ws.(pos := e)
  {
    DigitRun(ws, RunEnd(ws.source, ws.pos, Digits));
    DigitStartsNumber(ws);
  }

  /** A digit run followed by `.` is a float literal: the dot and the digit run
      after it are part of the literal. */
  lemma FloatToken(ws: Scanner)
    requires Valid(ws) && ws.pos < |ws.source| && IsDigit(ws.source[ws.pos])
    requires var e := RunEnd(ws.source, ws.pos, Digits);
      e < |ws.source| && ws.source[e] == '.'
    ensures CharSafe(ws)
    ensures var f := RunEnd(ws.source, RunEnd(ws.source, ws.pos, Digits) + 1, Digits);
      ScanAt(ws) == Scanned(FloatLiteral(ws.source[ws.pos..f]), ws.(pos := f))
  {
    FloatNumber(ws);
    DigitStartsNumber(ws);
  }

  /** `ReadNumber` on a digit run followed by `.`. */
  lemma FloatNumber(ws: Scanner)
    requires Valid(ws) && ws.pos < |ws.source| && IsDigit(ws.source[ws.pos])
    requires var e := RunEnd(ws.source, ws.pos, Digits);
      e < |ws.source| && ws.source[e] == '.'
    ensures CharSafe(ws)
    ensures var f := RunEnd(ws.source, RunEnd(ws.source, ws.pos, Digits) + 1, Digits);
      ReadNumber(ws.(pos := ws.pos + 1), ws.source[ws.pos]) == Scanned(FloatLiteral(ws.source[ws.pos..f]), ws.(pos := f))
  {
    var c, s1 := ws.source[ws.pos], ws.(pos := ws.pos + 1);
    var e := RunEnd(ws.source, ws.pos, Digits);
    var f := RunEnd(ws.source, e + 1, Digits);
    DigitRun(ws, f);
    assert NumberFits(s1, c);
    var r := ReadNumber(s1, c);
    assert r.scanner == ws.(pos := f);
    assert r.token == FloatLiteral([c] + ws.source[ws.pos + 1..f]);
  }

  /** The digit run from a digit is the digit and the run after it. */
  lemma DigitRun(ws: Scanner, f: nat)
    requires Valid(ws) && ws.pos < f <= |ws.source| && IsDigit(ws.source[ws.pos])
    ensures RunEnd(ws.source, ws.pos, Digits) == RunEnd(ws.source, ws.pos + 1, Digits)
    ensures [ws.source[ws.pos]] + ws.source[ws.pos + 1..f] == ws.source[ws.pos..f]
  {
    assert ws.source[ws.pos..f] == [ws.source[ws.pos]] + ws.source[ws.pos + 1..f];
  }

  lemma DigitStartsNumber(ws: Scanner)
    requires Valid(ws) && ws.pos < |ws.source| && IsDigit(ws.source[ws.pos]) && CharSafe(ws)
    ensures NumberFits(ws.(pos := ws.pos + 1), ws.source[ws.pos])
    ensures ScanAt(ws) == ReadNumber(ws.(pos := ws.pos + 1), ws.source[ws.pos])
  {
    assert !IsLetter(ws.source[ws.pos]);
  }

  /** A character that starts no token is read as `Illegal`. */
  lemma IllegalCharacter(ws: Scanner)
    requires Valid(ws) && ws.pos < |ws.source|
    requires var c := ws.source[ws.pos];
      Single(c).None? && c != '"' && !IsLetter(c) && !IsDigit(c)
    ensures CharSafe(ws)
    ensures ScanAt(ws) == Scanned(Illegal, ws.(pos := ws.pos + 1))
  {
    SymbolStart(ws);
  }

  /** A quoted text without quotes is scanned back as exactly that text. */
  lemma StringRoundTrip(text: string, rest: string, line: nat)
    requires '"' !in text
    ensures ScanSafe(Scanner("\"" + text + "\"" + rest, 0, line))
    ensures var src := "\"" + text + "\"" + rest;
      NextToken(Scanner(src, 0, line)) == Scanned(StringLiteral(text), Scanner(src, |text| + 2, line))
  {
    var src := "\"" + text + "\"" + rest;
    var sc := Scanner(src, 0, line);
    assert SkipWhitespace(sc) == sc;
    assert src[1..] == text + "\"" + rest;
    assert src[1 + |text|] == '"';
    assert QuoteAt(src, 1) == 1 + |text| by {
      QuoteAtFirst(src, 1, 1 + |text|);
    }
    assert src[1..1 + |text|] == text;
  }

  /** `QuoteAt` finds the first quote. */
  lemma QuoteAtFirst(s: string, i: nat, q: nat)
    requires i <= q < |s| && s[q] == '"'
    requires forall j :: i <= j < q ==> s[j] != '"'
    ensures '"' in s[i..]
    ensures QuoteAt(s, i) == q
  {
    assert s[i..][q - i] == '"';
  }

  /** After `skip(4)` on "ab12\na 123", skipping whitespace stops before the
      second `a` having counted one line. */
  lemma SkipWhitespaceExample()
    ensures SkipWhitespace(Scanner("ab12\na 123", 4, 0)) == Scanner("ab12\na 123", 5, 1)
  {
    var src := "ab12\na 123";
    assert src[4] == '\n' && src[5] == 'a';
    assert SkipWhitespace(Scanner(src, 5, 1)) == Scanner(src, 5, 1);
    assert src[4..5] == "\n";
  }
}

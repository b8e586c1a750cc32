/**
 * The character lexer (lib/src/lexer.rs).
 *
 * The lexer's state is a cursor over the input: `pos`, `next == pos + 1`,
 * `cur == CharAt(input, pos)` (the character NUL past the end, which is also how
 * a NUL in the input reads), `line`, `col` and `error_count`. The first half
 * of this module specifies every step as a function of that state, written
 * as `LexState` without the two derived fields; the `Lexer` class at the end
 * is the source's struct, and each of its methods is proved to agree with
 * the function that specifies it.
 *
 * Rust's `String::len` counts UTF-8 bytes while the cursor counts
 * characters; `Utf8Len` keeps that difference visible.
 */
module Lexing {
  import opened Wrappers
  import opened Tokens

  // ---------------------------------------------------------------------
  // Character classes
  // ---------------------------------------------------------------------

  predicate IsWhitespace(c: char) {
    c == ' ' || c == '\n' || c == '\r' || c == '\t'
  }

  /** ASCII letters only: digits and '_' never continue an identifier. */
  predicate IsLetter(c: char) {
    ('a' <= c <= 'z') || ('A' <= c <= 'Z')
  }

  predicate IsDigit(c: char) {
    '0' <= c <= '9'
  }

  predicate IsQuote(c: char) {
    c == '"' || c == '\'' || c == '`'
  }

  predicate IsHexDigit(c: char) {
    ('0' <= c <= '9') || ('A' <= c <= 'F') || ('a' <= c <= 'f')
  }

  predicate IsAscii(c: char) {
    c as int < 0x80
  }

  /**
   * The classes `next_token` tries in turn never overlap, so the order in
   * which it tries them decides nothing.
   */
  lemma DispatchClassesDisjoint(c: char)
    ensures IsLetter(c) ==> !IsDigit(c) && !IsQuote(c) && ParseOp([c]).None? && c != ';'
    ensures IsDigit(c) ==> !IsQuote(c) && ParseOp([c]).None? && c != ';'
    ensures IsQuote(c) ==> ParseOp([c]).None? && c != ';'
    ensures ParseOp([c]).Some? ==> c != ';' && c != '\0' && !IsWhitespace(c)
  {
  }

  // ---------------------------------------------------------------------
  // UTF-8 byte length, which `len()` measures
  // ---------------------------------------------------------------------

  function Utf8Width(c: char): nat {
    if c as int < 0x80 then 1
    else if c as int < 0x800 then 2
    else if c as int < 0x1_0000 then 3
    else 4
  }

  function Utf8Len(s: string): nat {
    if s == [] then 0 else Utf8Width(s[0]) + Utf8Len(s[1..])
  }

  /**
   * A string has at least as many bytes as characters, and exactly as many
   * if and only if every character is ASCII.
   */
  lemma {:induction false} Utf8LenVersusLength(s: string)
    ensures |s| <= Utf8Len(s)
    ensures Utf8Len(s) == |s| <==> forall i :: 0 <= i < |s| ==> IsAscii(s[i])
  {
    if s != [] {
      Utf8LenVersusLength(s[1..]);
      assert forall i :: 1 <= i < |s| ==> s[i] == s[1..][i - 1];
    }
  }

  // ---------------------------------------------------------------------
  // Char-literal validation
  // ---------------------------------------------------------------------

  /** The ten two-character escapes a char literal may hold. */
  const EscapeTable: set<string> :=
    {"\\\\", "\\a", "\\b", "\\f", "\\n", "\\r", "\\t", "\\v", "\\'", "\\0"}

  predicate IsValidEscapedChar(e: string) {
    e in EscapeTable
  }

  /**
   * `\u` followed by hex digits, tested as the source does: the length bound
   * is on bytes, and the digit test visits the character indices from 2 up
   * to the byte length.
   */
  predicate IsValidUnicodePoint(u: string) {
    && |u| >= 2 && u[0] == '\\' && u[1] == 'u'
    && Utf8Len(u) != 2 && Utf8Len(u) <= 10
    && forall i :: 2 <= i < |u| && i < Utf8Len(u) ==> IsHexDigit(u[i])
  }

  /** Whether the text of a closed char literal is acceptable. */
  predicate IsValidChar(c: string) {
    (Utf8Len(c) == 1 && c != "\\") || IsValidUnicodePoint(c) || IsValidEscapedChar(c)
  }

  /**
   * A char literal is valid if and only if it is one ASCII character other
   * than a backslash, or `\u` and one to eight hex digits, or one entry of
   * the escape table. (A single non-ASCII character is two or more bytes and
   * so is rejected.)
   */
  lemma CharLiteralValidity(c: string)
    ensures IsValidChar(c) <==>
      || (|c| == 1 && c[0] != '\\' && IsAscii(c[0]))
      || (3 <= |c| <= 10 && c[0] == '\\' && c[1] == 'u' &&
          forall i :: 2 <= i < |c| ==> IsHexDigit(c[i]))
      || c in EscapeTable
  {
    Utf8LenVersusLength(c);
    if |c| == 1 {
      assert Utf8Len(c) == Utf8Width(c[0]) + Utf8Len(c[1..]);
      assert c == "\\" <==> c[0] == '\\';
    }
    if IsValidUnicodePoint(c) {
      assert forall i :: 0 <= i < |c| ==> IsAscii(c[i]);
    }
  }

  /** `\u041` is valid: `\u` and three hex digits. */
  lemma UnicodeEscapeExample()
    ensures IsValidChar("\\u041")
  {
    CharLiteralValidity("\\u041");
  }

  /** An empty literal and the unknown escape `\q` are both invalid. */
  lemma InvalidCharExamples()
    ensures !IsValidChar("") && !IsValidChar("\\q")
  {
    CharLiteralValidity("");
    CharLiteralValidity("\\q");
    assert "\\q" !in EscapeTable;
  }

  /** One non-ASCII character is two bytes, so it is not a valid char literal. */
  lemma NonAsciiCharExample()
    ensures !IsValidChar("\U{e9}")
  {
    CharLiteralValidity("\U{e9}");
  }

  // ---------------------------------------------------------------------
  // The cursor state and reading one character
  // ---------------------------------------------------------------------

  /** The character under the cursor: NUL past the end of the input. */
  function CharAt(s: string, i: nat): char {
    if i < |s| then s[i] else '\0'
  }

  /**
   * The lexer's mutable state. `next` is always `pos + 1` and `cur` is always
   * `CharAt(input, pos)`, so neither is recorded here.
   */
  datatype LexState = LexState(pos: nat, line: int, col: int, errors: nat)

  /** The state `Lexer::new` leaves: the first character read, at line 1, column 1. */
  const Start := LexState(0, 1, 1, 0)

  /** The state after `n` calls of `read_char`: each moves one character and one column on. */
  function Advanced(st: LexState, n: nat): LexState {
    st.(pos := st.pos + n, col := st.col + n)
  }

  /** What the lexer has left to read; every token other than EOF shrinks it. */
  function Remaining(s: string, st: LexState): nat {
    if st.pos < |s| then |s| - st.pos else 0
  }

  /** The result of one `read_*` step: the kind, the text, and the state after it. */
  datatype Lexeme = Lexeme(kind: TokenType, text: string, after: LexState)

  // ---------------------------------------------------------------------
  // Whitespace and line tracking
  // ---------------------------------------------------------------------

  /** The number of newline characters at positions `i` up to `j`. */
  function Newlines(s: string, i: nat, j: nat): nat
    decreases j - i
  {
    if i < j then (if CharAt(s, i) == '\n' then 1 else 0) + Newlines(s, i + 1, j) else 0
  }

  /**
   * `skip_whitespace`: skip spaces, tabs, carriage returns and newlines. Only a
   * newline moves to the next line, and it sets the column so that the
   * character after it is in column 1.
   */
  function AfterWhitespace(s: string, st: LexState): (r: LexState)
    ensures st.pos <= r.pos && !IsWhitespace(CharAt(s, r.pos)) && r.errors == st.errors
    decreases |s| - st.pos
  {
    var c := CharAt(s, st.pos);
    if IsWhitespace(c) then
      var st1 := if c == '\n' then st.(line := st.line + 1, col := 0) else st;
      AfterWhitespace(s, Advanced(st1, 1))
    else
      st
  }

  /**
   * What `skip_whitespace` steps over is whitespace, and it counts the
   * newlines among it: the line moves on by their number, and the column is
   * the distance from the last of them, or moves on by the distance skipped
   * if there is none.
   */
  lemma {:induction false} WhitespaceSkipped(s: string, st: LexState)
    ensures var r := AfterWhitespace(s, st);
      && (forall k :: st.pos <= k < r.pos ==> IsWhitespace(CharAt(s, k)))
      && r.line == st.line + Newlines(s, st.pos, r.pos)
      && (Newlines(s, st.pos, r.pos) == 0 ==> r.col == st.col + (r.pos - st.pos))
      && (forall q :: st.pos <= q < r.pos && CharAt(s, q) == '\n' && Newlines(s, q + 1, r.pos) == 0 ==>
            r.col == r.pos - q)
    decreases |s| - st.pos
  {
    var c := CharAt(s, st.pos);
    if IsWhitespace(c) {
      var st1 := if c == '\n' then st.(line := st.line + 1, col := 0) else st;
      WhitespaceSkipped(s, Advanced(st1, 1));
    }
  }

  // ---------------------------------------------------------------------
  // Identifiers, numbers, comments
  // ---------------------------------------------------------------------

  /** The end of the run of ASCII letters starting at `i`. */
  function LetterRunEnd(s: string, i: nat): (j: nat)
    ensures i <= j && !IsLetter(CharAt(s, j))
    ensures forall k :: i <= k < j ==> k < |s| && IsLetter(s[k])
    ensures j == i || j <= |s|
    decreases |s| - i
  {
    if IsLetter(CharAt(s, i)) then LetterRunEnd(s, i + 1) else i
  }

  /** `read_identifier`: the letters from the cursor on. */
  function IdentifierLexeme(s: string, st: LexState): Lexeme
    requires st.pos <= |s|
  {
    var e := LetterRunEnd(s, st.pos);
    Lexeme(Identifier, s[st.pos..e], Advanced(st, e - st.pos))
  }

  /**
   * The loop of `read_number` from position `i`: after each digit, a '.' is
   * taken as well when a digit follows it. Returns where the number ends and
   * whether a '.' was taken.
   */
  function NumberEnd(s: string, i: nat, isFloat: bool): (r: (nat, bool))
    ensures i <= r.0 && (r.0 == i || r.0 <= |s|)
    ensures r.0 == i <==> !IsDigit(CharAt(s, i))
    ensures !IsDigit(CharAt(s, r.0))
    ensures r.0 > i ==> IsDigit(s[r.0 - 1]) && !(CharAt(s, r.0) == '.' && IsDigit(CharAt(s, r.0 + 1)))
    decreases |s| - i
  {
    if IsDigit(CharAt(s, i)) then
      if CharAt(s, i + 1) == '.' && i + 2 < |s| && IsDigit(s[i + 2]) then
        NumberEnd(s, i + 2, true)
      else
        NumberEnd(s, i + 1, isFloat)
    else
      (i, isFloat)
  }

  /**
   * The number run is digits, with a '.' only strictly inside it between two
   * digits, and a '.' was taken exactly when one is in the run.
   */
  lemma {:induction false} NumberEndRun(s: string, i: nat, isFloat: bool)
    ensures var r := NumberEnd(s, i, isFloat);
      && (forall k :: i <= k < r.0 ==> NumberChar(s, i, r.0, k))
      && (r.1 <==> isFloat || exists k :: i <= k < r.0 && s[k] == '.')
    decreases |s| - i
  {
    if IsDigit(CharAt(s, i)) {
      if CharAt(s, i + 1) == '.' && i + 2 < |s| && IsDigit(s[i + 2]) {
        var r := NumberEnd(s, i + 2, true);
        NumberEndRun(s, i + 2, true);
        forall k | i <= k < r.0 ensures NumberChar(s, i, r.0, k) {
          if k >= i + 2 {
            assert NumberChar(s, i + 2, r.0, k);
          }
        }
        assert s[i + 1] == '.';
      } else {
        var r := NumberEnd(s, i + 1, isFloat);
        NumberEndRun(s, i + 1, isFloat);
        forall k | i <= k < r.0 ensures NumberChar(s, i, r.0, k) {
          if k > i {
            assert NumberChar(s, i + 1, r.0, k);
          }
        }
      }
    }
  }

  /**
   * Character `k` of the number run `s[i..j]`: a digit, or a '.' strictly
   * inside the run with a digit on each side.
   */
  predicate NumberChar(s: string, i: nat, j: nat, k: nat)
    requires i <= k < j <= |s|
  {
    IsDigit(s[k]) || (s[k] == '.' && i < k && k + 1 < j && IsDigit(s[k - 1]) && IsDigit(s[k + 1]))
  }

  /** `read_number`: Float if a '.' was taken, Int otherwise. */
  function NumberLexeme(s: string, st: LexState): Lexeme
    requires st.pos <= |s|
  {
    var (e, isFloat) := NumberEnd(s, st.pos, false);
    Lexeme(if isFloat then Float else Int, s[st.pos..e], Advanced(st, e - st.pos))
  }

  /** The end of a comment: the next newline or the end of the input. */
  function CommentEnd(s: string, i: nat): (j: nat)
    ensures i <= j && (CharAt(s, j) == '\n' || CharAt(s, j) == '\0')
    ensures forall k :: i <= k < j ==> k < |s| && s[k] != '\n' && s[k] != '\0'
    ensures j == i || j <= |s|
    decreases |s| - i
  {
    if CharAt(s, i) != '\n' && CharAt(s, i) != '\0' then CommentEnd(s, i + 1) else i
  }

  /** `read_comment`: from the ';' up to, not including, the end of the line. */
  function CommentLexeme(s: string, st: LexState): Lexeme
    requires st.pos <= |s|
  {
    var e := CommentEnd(s, st.pos);
    Lexeme(Comment, s[st.pos..e], Advanced(st, e - st.pos))
  }

  // ---------------------------------------------------------------------
  // Operators: longest match
  // ---------------------------------------------------------------------

  /**
   * How many characters `read_operator` takes at `p`: the longest of 3, 2 and
   * 1 characters whose slice is in the operator table, or 0 if none is.
   */
  function OperatorLength(s: string, p: nat): (n: nat)
    ensures n <= 3 && (n > 0 ==> p + n <= |s| && ParseOp(s[p..p + n]).Some?)
    ensures n < 3 && p + 3 <= |s| ==> ParseOp(s[p..p + 3]).None?
    ensures n < 2 && p + 2 <= |s| ==> ParseOp(s[p..p + 2]).None?
    ensures n < 1 && p + 1 <= |s| ==> ParseOp(s[p..p + 1]).None?
  {
    if p + 3 <= |s| && ParseOp(s[p..p + 3]).Some? then 3
    else if p + 2 <= |s| && ParseOp(s[p..p + 2]).Some? then 2
    else if p + 1 <= |s| && ParseOp(s[p..p + 1]).Some? then 1
    else 0
  }

  /** `read_operator`: the longest match, or `base` and no progress if there is none. */
  function OperatorLexeme(s: string, st: LexState, base: TokenType): Lexeme {
    var n := OperatorLength(s, st.pos);
    if n > 0 then
      Lexeme(ParseOp(s[st.pos..st.pos + n]).value, s[st.pos..st.pos + n], Advanced(st, n))
    else
      Lexeme(base, [CharAt(s, st.pos)], st)
  }

  /**
   * Whenever `next_token` calls `read_operator`, a match exists: the current
   * character alone is in the table.
   */
  lemma OperatorAlwaysMatches(s: string, p: nat)
    requires ParseOp([CharAt(s, p)]).Some?
    ensures 1 <= OperatorLength(s, p)
  {
    assert p < |s|;
    assert s[p..p + 1] == [CharAt(s, p)];
  }

  // ---------------------------------------------------------------------
  // Quoted literals
  // ---------------------------------------------------------------------

  /**
   * The character `d` places before `p` inside a literal whose text starts at
   * `start`; NUL before the text, as the look-back variables begin.
   */
  function Before(s: string, start: nat, p: nat, d: nat): char {
    if p >= start + d then CharAt(s, p - d) else '\0'
  }

  /** The character at `p` is escaped: a backslash before it, but not a doubled one. */
  predicate Escaped(s: string, start: nat, p: nat) {
    Before(s, start, p, 1) == '\\' && Before(s, start, p, 2) != '\\'
  }

  /** The literal opened by `q` closes at `p`. */
  predicate Closes(s: string, start: nat, q: char, p: nat) {
    CharAt(s, p) == q && !Escaped(s, start, p)
  }

  /**
   * The scan of the literal stops at `p`: it closes there, or the end of the
   * input is reached there after at least one character was stepped over.
   */
  predicate Stops(s: string, start: nat, q: char, p: nat) {
    Closes(s, start, q, p) || (start < p && CharAt(s, p) == '\0')
  }

  /**
   * The loop of `read_quote` AS WRITTEN, from position `p` with look-back
   * characters `last` and `last2`: where it stops and whether the literal
   * was closed. It tests for the end of the input only after stepping, so
   * from `p == |s|` it stops at `|s| + 1`.
   */
  function QuoteScan(s: string, p: nat, q: char, last: char, last2: char): (r: (nat, bool))
    ensures p <= r.0
    decreases |s| - p
  {
    if CharAt(s, p) != q || (last == '\\' && last2 != '\\') then
      if CharAt(s, p + 1) == '\0' then (p + 1, false)
      else QuoteScan(s, p + 1, q, CharAt(s, p), last)
    else
      (p, true)
  }

  /**
   * The loop of `read_quote` as the model runs it: when the opening quote is
   * the last character there is nothing to scan, and the literal is empty
   * and unclosed. Otherwise it is the loop as written.
   */
  function QuoteBody(s: string, start: nat, q: char): (r: (nat, bool))
    ensures start <= r.0 && (r.0 == start || r.0 <= |s|)
    ensures start < |s| ==> r.0 <= |s|
  {
    if start < |s| then
      QuoteScanBounded(s, start, q, '\0', '\0');
      QuoteScan(s, start, q, '\0', '\0')
    else
      (start, false)
  }

  /**
   * From any point `p` of a literal that starts at `start` inside the input,
   * the loop stops at the first position from `p` on where `Stops` holds, and
   * reports the literal closed exactly when it closes there.
   */
  lemma {:induction false} QuoteScanCharacterized(s: string, start: nat, q: char, p: nat)
    requires start <= p < |s| && q != '\0'
    requires p == start || CharAt(s, p) != '\0'
    ensures var r := QuoteScan(s, p, q, Before(s, start, p, 1), Before(s, start, p, 2));
      && p <= r.0 <= |s| && Stops(s, start, q, r.0)
      && (forall k :: p <= k < r.0 ==> !Stops(s, start, q, k))
      && (r.1 <==> Closes(s, start, q, r.0))
    decreases |s| - p
  {
    var r := QuoteScan(s, p, q, Before(s, start, p, 1), Before(s, start, p, 2));
    if CharAt(s, p) != q || Escaped(s, start, p) {
      if CharAt(s, p + 1) != '\0' {
        assert Before(s, start, p + 1, 1) == CharAt(s, p);
        assert Before(s, start, p + 2, 2) == CharAt(s, p);
        assert Before(s, start, p + 1, 2) == Before(s, start, p, 1);
        QuoteScanCharacterized(s, start, q, p + 1);
      }
    }
  }

  /** From inside the input, the loop as written stops inside the input. */
  lemma {:induction false} QuoteScanBounded(s: string, p: nat, q: char, last: char, last2: char)
    requires p < |s|
    ensures QuoteScan(s, p, q, last, last2).0 <= |s|
    decreases |s| - p
  {
    if CharAt(s, p) != q || (last == '\\' && last2 != '\\') {
      if CharAt(s, p + 1) != '\0' {
        QuoteScanBounded(s, p + 1, q, CharAt(s, p), last);
      }
    }
  }

  /** Where the literal whose text starts at `start` ends, and whether it closed. */
  lemma QuoteBodyCharacterized(s: string, start: nat, q: char)
    requires start < |s| && q != '\0'
    ensures var r := QuoteBody(s, start, q);
      && r.0 <= |s| && Stops(s, start, q, r.0)
      && (forall k :: start <= k < r.0 ==> !Stops(s, start, q, k))
      && (r.1 <==> Closes(s, start, q, r.0))
      && (!r.1 ==> CharAt(s, r.0) == '\0')
  {
    QuoteScanCharacterized(s, start, q, start);
  }

  /**
   * The loop as written overruns when the opening quote is the last
   * character of the input: it stops one past the end, so the text slice
   * `input[start..end]` it then takes is out of bounds.
   */
  lemma QuoteScanOverrunsAtEnd(s: string, q: char)
    requires q != '\0'
    ensures QuoteScan(s, |s|, q, '\0', '\0') == (|s| + 1, false)
  {
  }

  /** The kind of a quoted literal, from its opening quote. */
  function QuoteKind(q: char): TokenType {
    if q == '\'' then Char else if q == '`' then FormString else String
  }

  /**
   * `read_quote`, with the overrun removed: the text between the quotes, one
   * error for an unclosed literal, one for a closed char literal that is not
   * valid, and the cursor past the closing quote.
   */
  function QuoteLexeme(s: string, st: LexState): Lexeme
    requires st.pos < |s|
  {
    var q := s[st.pos];
    var start := st.pos + 1;
    var (end, closed) := QuoteBody(s, start, q);
    var text := s[start..end];
    var unclosed := if closed then 0 else 1;
    var invalid := if closed && q == '\'' && !IsValidChar(text) then 1 else 0;
    Lexeme(QuoteKind(q), text, Advanced(st, end + 1 - st.pos).(errors := st.errors + unclosed + invalid))
  }

  // ---------------------------------------------------------------------
  // Tokens and the scan
  // ---------------------------------------------------------------------

  /**
   * `create_token`: the column is moved back by the byte length of the text,
   * and by 2 more for a quoted literal.
   */
  function CreateTokenAt(kind: TokenType, value: string, st: LexState): (t: Token)
    ensures t.value == value && t.kind == kind && t.line == st.line
    ensures IsQuoted(kind) ==> t.col == st.col - Utf8Len(value) - 2
    ensures !IsQuoted(kind) ==> t.col == st.col - Utf8Len(value)
  {
    var offs := Utf8Len(value) + if IsQuoted(kind) then 2 else 0;
    Token(value, kind, st.line, st.col - offs)
  }

  /** A token from a lexeme. */
  function Emit(l: Lexeme): (Token, LexState) {
    (CreateTokenAt(l.kind, l.text, l.after), l.after)
  }

  /**
   * `next_token`: skip whitespace, then try a letter, a digit, a quote, an
   * operator character and ';' in turn. At the end of the input, or on any
   * other character, the token is EOF with the line and column from before
   * the whitespace; an unrecognized character also counts an error and is
   * stepped over.
   */
  function NextTokenOf(s: string, st: LexState): (r: (Token, LexState))
    ensures !r.0.kind.EOF? ==> Remaining(s, r.1) < Remaining(s, st)
    ensures Remaining(s, r.1) <= Remaining(s, st)
  {
    var empty := Token("", EOF, st.line, st.col);
    var w := AfterWhitespace(s, st);
    var c := CharAt(s, w.pos);
    if c == '\0' then
      (empty, w)
    else if IsLetter(c) then
      Emit(IdentifierLexeme(s, w))
    else if IsDigit(c) then
      Emit(NumberLexeme(s, w))
    else if IsQuote(c) then
      Emit(QuoteLexeme(s, w))
    else if ParseOp([c]).Some? then
      OperatorAlwaysMatches(s, w.pos);
      Emit(OperatorLexeme(s, w, ParseOp([c]).value))
    else if c == ';' then
      Emit(CommentLexeme(s, w))
    else
      (empty, Advanced(w, 1).(errors := w.errors + 1))
  }

  /** The tokens `scan` collects from state `st` on, and the state after the EOF. */
  function ScanFrom(s: string, st: LexState): (seq<Token>, LexState)
    decreases Remaining(s, st)
  {
    var (t, next) := NextTokenOf(s, st);
    if t.kind.EOF? then
      ([], next)
    else
      var rest := ScanFrom(s, next);
      ([t] + rest.0, rest.1)
  }

  /** The decimal digits of `n`, as `format!("{}", n)` writes them. */
  function DecimalString(n: nat): (d: string)
    ensures |d| > 0 && forall i :: 0 <= i < |d| ==> IsDigit(d[i])
    ensures |d| > 1 ==> d[0] != '0'
  {
    if n < 10 then [(n + '0' as int) as char]
    else DecimalString(n / 10) + [(n % 10 + '0' as int) as char]
  }

  /** The number a string of decimal digits spells. */
  function DecimalValue(d: string): nat
    requires forall i :: 0 <= i < |d| ==> IsDigit(d[i])
  {
    if d == [] then 0
    else
      var last := d[|d| - 1];
      assert IsDigit(last);
      DecimalValue(d[..|d| - 1]) * 10 + (last as int - '0' as int)
  }

  /** `DecimalString` writes exactly the number it is given. */
  lemma {:induction false} DecimalRoundTrip(n: nat)
    ensures DecimalValue(DecimalString(n)) == n
  {
    var d := DecimalString(n);
    if n >= 10 {
      DecimalRoundTrip(n / 10);
      assert d[..|d| - 1] == DecimalString(n / 10);
    }
  }

  /** The message for `n` errors: the count, then "error" or "errors". */
  function SyntaxErrors(n: nat, file: string): string {
    DecimalString(n) + " syntax error" + (if n > 1 then "s" else "") + " encountered in " + file
  }

  /** One error is reported in the singular. */
  lemma OneSyntaxError(file: string)
    ensures SyntaxErrors(1, file) == "1 syntax error encountered in " + file
  {
    assert DecimalString(1) == "1";
    assert "1" + " syntax error" + "" + " encountered in " == "1 syntax error encountered in ";
  }

  /** Two errors are reported in the plural. */
  lemma TwoSyntaxErrors(file: string)
    ensures SyntaxErrors(2, file) == "2 syntax errors encountered in " + file
  {
    assert DecimalString(2) == "2";
    assert "2" + " syntax error" + "s" + " encountered in " == "2 syntax errors encountered in ";
  }

  /**
   * `scan`: the tokens up to the first EOF, unless there are none, which is
   * reported first, or errors were counted on the way.
   */
  function Scanned(source: string, file: string): Result<seq<Token>, string> {
    var (tokens, last) := ScanFrom(source, Start);
    if |tokens| == 0 then
      Err("No source code found in " + file)
    else if last.errors > 0 then
      Err(SyntaxErrors(last.errors, file))
    else
      Ok(tokens)
  }

  // ---------------------------------------------------------------------
  // What each `read_*` step takes
  // ---------------------------------------------------------------------

  /** All ASCII, so as many bytes as characters. */
  lemma AsciiText(v: string)
    requires forall i :: 0 <= i < |v| ==> IsAscii(v[i])
    ensures Utf8Len(v) == |v|
  {
    Utf8LenVersusLength(v);
  }

  /**
   * `read_identifier` at a letter takes the maximal non-empty run of ASCII
   * letters, so neither digits nor '_' continue it.
   */
  lemma IdentifierLexemeShape(s: string, w: LexState)
    requires IsLetter(CharAt(s, w.pos))
    ensures IdentifierLexeme(s, w).kind.Identifier?
    ensures var v := IdentifierLexeme(s, w).text;
      |v| > 0 && w.pos + |v| <= |s| && v == s[w.pos..w.pos + |v|]
    ensures var v := IdentifierLexeme(s, w).text;
      (forall i :: 0 <= i < |v| ==> IsLetter(v[i])) && !IsLetter(CharAt(s, w.pos + |v|))
    ensures IdentifierLexeme(s, w).after == Advanced(w, |IdentifierLexeme(s, w).text|)
    ensures Utf8Len(IdentifierLexeme(s, w).text) == |IdentifierLexeme(s, w).text|
  {
    var v := IdentifierLexeme(s, w).text;
    forall i | 0 <= i < |v| ensures IsAscii(v[i]) {
      assert IsLetter(v[i]);
    }
    AsciiText(v);
  }

  /**
   * `read_number` at a digit takes a maximal run of digits, with a '.' taken
   * only between two digits, and calls it a Float exactly when it holds a
   * '.'; so "1." is the Int "1" and leaves the '.' behind.
   */
  lemma NumberLexemeShape(s: string, w: LexState)
    requires IsDigit(CharAt(s, w.pos))
    ensures var v := NumberLexeme(s, w).text;
      |v| > 0 && w.pos + |v| <= |s| && v == s[w.pos..w.pos + |v|]
    ensures var v := NumberLexeme(s, w).text;
      IsDigit(v[0]) && IsDigit(v[|v| - 1]) && forall i :: 0 <= i < |v| ==> NumberChar(v, 0, |v|, i)
    ensures var v := NumberLexeme(s, w).text;
      !IsDigit(CharAt(s, w.pos + |v|)) && !(CharAt(s, w.pos + |v|) == '.' && IsDigit(CharAt(s, w.pos + |v| + 1)))
    ensures var l := NumberLexeme(s, w);
      (l.kind.Int? || l.kind.Float?) && (l.kind.Float? <==> exists i :: 0 <= i < |l.text| && l.text[i] == '.')
    ensures NumberLexeme(s, w).after == Advanced(w, |NumberLexeme(s, w).text|)
  {
    var (e, isFloat) := NumberEnd(s, w.pos, false);
    NumberEndRun(s, w.pos, false);
    var v := s[w.pos..e];
    assert NumberLexeme(s, w).text == v;
    assert forall i :: 0 <= i < |v| ==> NumberChar(v, 0, |v|, i) by {
      forall i | 0 <= i < |v| ensures NumberChar(v, 0, |v|, i) {
        assert NumberChar(s, w.pos, e, w.pos + i);
      }
    }
    assert isFloat <==> exists i :: 0 <= i < |v| && v[i] == '.' by {
      if isFloat {
        var k :| w.pos <= k < e && s[k] == '.';
        assert v[k - w.pos] == '.';
      }
      if exists i :: 0 <= i < |v| && v[i] == '.' {
        var i :| 0 <= i < |v| && v[i] == '.';
        assert s[w.pos + i] == '.';
      }
    }
  }

  /**
   * `read_quote` at a quote takes its kind from that quote, and its text is
   * what lies between the quotes: up to the first place the literal stops,
   * which is its closing quote or the end of the input. It counts one error
   * for an unclosed literal and one for a closed char literal that is not
   * valid, and leaves the cursor just past the closing quote.
   */
  lemma QuoteLexemeShape(s: string, w: LexState)
    requires w.pos < |s| && IsQuote(s[w.pos])
    ensures var l := QuoteLexeme(s, w);
      var q := s[w.pos];
      var start := w.pos + 1;
      var end := start + |l.text|;
      && l.kind == QuoteKind(q)
      && end <= |s| && l.text == s[start..end]
      && (start < |s| ==> Stops(s, start, q, end) && forall k :: start <= k < end ==> !Stops(s, start, q, k))
      && (start == |s| ==> l.text == "")
      && var closed := start < |s| && Closes(s, start, q, end);
      && l.after.errors == w.errors + (if !closed then 1 else if q == '\'' && !IsValidChar(l.text) then 1 else 0)
      && l.after.pos == end + 1 && l.after.line == w.line && l.after.col == w.col + |l.text| + 2
  {
    if w.pos + 1 < |s| {
      QuoteBodyCharacterized(s, w.pos + 1, s[w.pos]);
    }
  }

  /**
   * `read_operator` at a character of the table takes the longest spelling
   * there, of three, two or one characters, and its kind is the one the
   * table gives that spelling.
   */
  lemma OperatorLexemeShape(s: string, w: LexState, base: TokenType)
    requires ParseOp([CharAt(s, w.pos)]).Some?
    ensures var l := OperatorLexeme(s, w, base);
      && |l.text| == OperatorLength(s, w.pos) && 1 <= |l.text|
      && w.pos + |l.text| <= |s| && l.text == s[w.pos..w.pos + |l.text|]
      && ParseOp(l.text) == Some(l.kind)
      && l.after == Advanced(w, |l.text|)
      && Utf8Len(l.text) == |l.text|
  {
    OperatorAlwaysMatches(s, w.pos);
    var n := OperatorLength(s, w.pos);
    SpellingIsAscii(s[w.pos..w.pos + n]);
    AsciiText(s[w.pos..w.pos + n]);
  }

  /**
   * `read_comment` at a ';' takes everything up to, and not including, the
   * next newline or the end of the input.
   */
  lemma CommentLexemeShape(s: string, w: LexState)
    requires CharAt(s, w.pos) == ';'
    ensures var l := CommentLexeme(s, w);
      var v := l.text;
      && l.kind.Comment? && |v| > 0 && v[0] == ';'
      && w.pos + |v| <= |s| && v == s[w.pos..w.pos + |v|]
      && (forall i :: 0 <= i < |v| ==> v[i] != '\n' && v[i] != '\0')
      && (CharAt(s, w.pos + |v|) == '\n' || CharAt(s, w.pos + |v|) == '\0')
      && l.after == Advanced(w, |v|)
  {
  }

  // ---------------------------------------------------------------------
  // What `next_token` produces
  // ---------------------------------------------------------------------

  /** A character `next_token` has no rule for. */
  predicate Unrecognized(c: char) {
    c != '\0' && !IsLetter(c) && !IsDigit(c) && !IsQuote(c) && ParseOp([c]).None? && c != ';'
  }

  /**
   * The step `next_token` takes at the end of the input, a letter or a
   * digit after the whitespace. At the end of the input the token is EOF
   * with the position from before the whitespace.
   */
  lemma NextTokenDispatch(s: string, st: LexState)
    ensures var w := AfterWhitespace(s, st);
      var c := CharAt(s, w.pos);
      && (c == '\0' ==> NextTokenOf(s, st) == (Token("", EOF, st.line, st.col), w))
      && (IsLetter(c) ==> NextTokenOf(s, st) == Emit(IdentifierLexeme(s, w)))
      && (IsDigit(c) ==> NextTokenOf(s, st) == Emit(NumberLexeme(s, w)))
  {
    DispatchClassesDisjoint(CharAt(s, AfterWhitespace(s, st).pos));
  }

  /** The step `next_token` takes at a quote or an operator character. */
  lemma NextTokenDispatchQuoteOrOperator(s: string, st: LexState)
    ensures var w := AfterWhitespace(s, st);
      var c := CharAt(s, w.pos);
      && (IsQuote(c) ==> NextTokenOf(s, st) == Emit(QuoteLexeme(s, w)))
      && (ParseOp([c]).Some? ==> NextTokenOf(s, st) == Emit(OperatorLexeme(s, w, ParseOp([c]).value)))
  {
    DispatchClassesDisjoint(CharAt(s, AfterWhitespace(s, st).pos));
  }

  /**
   * The step `next_token` takes at a ';' or at any other character: an EOF
   * token with the position from before the whitespace, one more error, and
   * the character stepped over.
   */
  lemma NextTokenDispatchOther(s: string, st: LexState)
    ensures var w := AfterWhitespace(s, st);
      var c := CharAt(s, w.pos);
      && (c == ';' ==> NextTokenOf(s, st) == Emit(CommentLexeme(s, w)))
      && (Unrecognized(c) ==>
            NextTokenOf(s, st) == (Token("", EOF, st.line, st.col), Advanced(w, 1).(errors := st.errors + 1)))
  {
    NotInTable();
  }

  /**
   * What a token other than EOF can hold: a non-empty run of letters for an
   * Identifier, digits with inner dots for a number (a Float exactly when
   * there is a dot), its own spelling for an operator, and a ';' and the rest
   * of its line for a Comment.
   */
  predicate WellFormedToken(t: Token) {
    && !t.kind.EOF?
    && (t.kind.Identifier? ==>
          |t.value| > 0 && forall i :: 0 <= i < |t.value| ==> IsLetter(t.value[i]))
    && (t.kind.Int? || t.kind.Float? ==>
          && |t.value| > 0 && (forall i :: 0 <= i < |t.value| ==> NumberChar(t.value, 0, |t.value|, i))
          && (t.kind.Float? <==> exists i :: 0 <= i < |t.value| && t.value[i] == '.'))
    && (IsOperator(t.kind) ==> ParseOp(t.value) == Some(t.kind))
    && (t.kind.Comment? ==>
          |t.value| > 0 && t.value[0] == ';' && forall i :: 0 <= i < |t.value| ==> t.value[i] != '\n')
  }

  /** Every token `next_token` returns other than EOF is well formed. */
  lemma NextTokenWellFormed(s: string, st: LexState)
    ensures var t := NextTokenOf(s, st).0;
      var w := AfterWhitespace(s, st);
      !t.kind.EOF? ==>
        WellFormedToken(t)
  {
    var w := AfterWhitespace(s, st);
    var c := CharAt(s, w.pos);
    NextTokenDispatch(s, st);
    NextTokenDispatchQuoteOrOperator(s, st);
    NextTokenDispatchOther(s, st);
    if IsLetter(c) {
      IdentifierLexemeShape(s, w);
    } else if IsDigit(c) {
      NumberLexemeShape(s, w);
    } else if IsQuote(c) {
      QuoteLexemeShape(s, w);
    } else if ParseOp([c]).Some? {
      OperatorLexemeShape(s, w, ParseOp([c]).value);
      ParseOpExactly(OperatorLexeme(s, w, ParseOp([c]).value).text, OperatorLexeme(s, w, ParseOp([c]).value).kind);
    } else if c == ';' {
      CommentLexemeShape(s, w);
    }
  }

  /**
   * Every token other than EOF is placed at the line and column of its first
   * character (its opening quote, for a quoted literal), less the bytes its
   * text has beyond one per character; so an ASCII token is placed exactly
   * there. EOF keeps the position from before the whitespace.
   */
  lemma NextTokenPosition(s: string, st: LexState)
    ensures var t := NextTokenOf(s, st).0;
      var w := AfterWhitespace(s, st);
      && (!t.kind.EOF? ==> t.line == w.line && t.col == w.col - (Utf8Len(t.value) - |t.value|))
      && (t.kind.EOF? ==> t.line == st.line && t.col == st.col && t.value == "")
  {
    var w := AfterWhitespace(s, st);
    var c := CharAt(s, w.pos);
    NextTokenDispatch(s, st);
    NextTokenDispatchQuoteOrOperator(s, st);
    NextTokenDispatchOther(s, st);
    if IsLetter(c) {
      IdentifierLexemeShape(s, w);
      EmitPlacement(IdentifierLexeme(s, w), w);
    } else if IsDigit(c) {
      NumberLexemeShape(s, w);
      EmitPlacement(NumberLexeme(s, w), w);
    } else if IsQuote(c) {
      QuoteLexemeShape(s, w);
      EmitPlacement(QuoteLexeme(s, w), w);
    } else if ParseOp([c]).Some? {
      OperatorLexemeShape(s, w, ParseOp([c]).value);
      ParseOpExactly(OperatorLexeme(s, w, ParseOp([c]).value).text, OperatorLexeme(s, w, ParseOp([c]).value).kind);
      EmitPlacement(OperatorLexeme(s, w, ParseOp([c]).value), w);
    } else if c == ';' {
      CommentLexemeShape(s, w);
      EmitPlacement(CommentLexeme(s, w), w);
    }
  }

  /**
   * `create_token` moves the column back over the text and the quotes, so a
   * lexeme that moved the cursor over exactly those is placed where it began.
   */
  lemma EmitPlacement(l: Lexeme, w: LexState)
    requires l.after.line == w.line
    requires l.after.col == w.col + |l.text| + (if IsQuoted(l.kind) then 2 else 0)
    ensures Emit(l).0.line == w.line && Emit(l).0.col == w.col - (Utf8Len(l.text) - |l.text|)
  {
  }

  // ---------------------------------------------------------------------
  // What `scan` returns
  // ---------------------------------------------------------------------

  /** Every token the scan collects is well formed. */
  lemma {:induction false} ScanFromWellFormed(s: string, st: LexState)
    ensures forall i :: 0 <= i < |ScanFrom(s, st).0| ==> WellFormedToken(ScanFrom(s, st).0[i])
    decreases Remaining(s, st)
  {
    var (t, next) := NextTokenOf(s, st);
    if !t.kind.EOF? {
      NextTokenWellFormed(s, st);
      ScanFromWellFormed(s, next);
    }
  }

  /**
   * A successful scan is a non-empty list of well-formed tokens, none of
   * them EOF, found without a single error; every failure is one of the two
   * messages.
   */
  lemma ScannedPolicy(source: string, file: string)
    ensures var (tokens, last) := ScanFrom(source, Start);
      && (Scanned(source, file).Ok? <==> |tokens| > 0 && last.errors == 0)
      && (Scanned(source, file).Ok? ==>
            Scanned(source, file).value == tokens &&
            forall i :: 0 <= i < |tokens| ==> WellFormedToken(tokens[i]))
      && (|tokens| == 0 ==> Scanned(source, file) == Err("No source code found in " + file))
      && (|tokens| > 0 && last.errors > 0 ==> Scanned(source, file) == Err(SyntaxErrors(last.errors, file)))
  {
    ScanFromWellFormed(source, Start);
  }

  /**
   * Input of nothing but whitespace is reported as holding no source code,
   * and so is input whose first character after the whitespace has no rule.
   */
  lemma NoSourceReported(source: string, file: string)
    requires (forall i :: 0 <= i < |source| ==> IsWhitespace(source[i]))
          || Unrecognized(CharAt(source, AfterWhitespace(source, Start).pos))
    ensures Scanned(source, file) == Err("No source code found in " + file)
  {
    var w := AfterWhitespace(source, Start);
    NextTokenDispatch(source, Start);
    NextTokenDispatchOther(source, Start);
    if forall i :: 0 <= i < |source| ==> IsWhitespace(source[i]) {
      assert CharAt(source, w.pos) == '\0';
    }
  }

  /**
   * An unrecognized character ends the scan: nothing after it is read, and
   * it counts one error.
   */
  lemma UnrecognizedEndsScan(s: string, st: LexState)
    requires Unrecognized(CharAt(s, AfterWhitespace(s, st).pos))
    ensures ScanFrom(s, st) == ([], Advanced(AfterWhitespace(s, st), 1).(errors := st.errors + 1))
  {
    NextTokenDispatchOther(s, st);
  }

  // ---------------------------------------------------------------------
  // One step of each loop, for the methods below
  // ---------------------------------------------------------------------

  /** One character of whitespace skipped leaves the same place to stop. */
  lemma AfterWhitespaceStep(s: string, st: LexState)
    ensures var c := CharAt(s, st.pos);
      && (IsWhitespace(c) ==>
            var st1 := if c == '\n' then st.(line := st.line + 1, col := 0) else st;
            AfterWhitespace(s, st) == AfterWhitespace(s, Advanced(st1, 1)))
      && (!IsWhitespace(c) ==> AfterWhitespace(s, st) == st)
  {
  }

  /** One step of the loop of `read_number`. */
  lemma NumberEndStep(s: string, i: nat, isFloat: bool)
    ensures IsDigit(CharAt(s, i)) ==>
      NumberEnd(s, i, isFloat) ==
        if CharAt(s, i + 1) == '.' && i + 2 < |s| && IsDigit(s[i + 2]) then NumberEnd(s, i + 2, true)
        else NumberEnd(s, i + 1, isFloat)
    ensures !IsDigit(CharAt(s, i)) ==> NumberEnd(s, i, isFloat) == (i, isFloat)
  {
  }

  /** One step of the loop of `read_quote`. */
  lemma QuoteScanStep(s: string, p: nat, q: char, last: char, last2: char)
    ensures CharAt(s, p) != q || (last == '\\' && last2 != '\\') ==>
      QuoteScan(s, p, q, last, last2) ==
        if CharAt(s, p + 1) == '\0' then (p + 1, false) else QuoteScan(s, p + 1, q, CharAt(s, p), last)
    ensures !(CharAt(s, p) != q || (last == '\\' && last2 != '\\')) ==> QuoteScan(s, p, q, last, last2) == (p, true)
  {
  }

  // ---------------------------------------------------------------------
  // The lexer itself
  // ---------------------------------------------------------------------

  /**
   * `Lexer`: the input and the cursor over it. Every method is proved to
   * leave the state that the function of the same step specifies.
   */
  class Lexer {
    const input: string
    var pos: nat
    var next: nat
    var cur: char
    var line: int
    var col: int
    var errorCount: nat

    /** `next` is one past `pos`, and `cur` is the character at `pos`. */
    ghost predicate Valid()
      reads this
    {
      next == pos + 1 && cur == CharAt(input, pos)
    }

    ghost function State(): LexState
      reads this
    {
      LexState(pos, line, col, errorCount)
    }

    /** `Lexer::new`: the first character is read, at line 1, column 1. */
    constructor (sourceCode: string)
      ensures input == sourceCode && Valid() && State() == Start
    {
      input := sourceCode;
      pos, next, cur := 0, 0, '\0';
      line, col, errorCount := 1, 0, 0;
      new;
      ReadChar();
    }

    /** `read_char`: step to `next`, reading NUL past the end; one column on. */
    method ReadChar()
      modifies this
      ensures pos == old(next) && next == old(next) + 1 && cur == CharAt(input, old(next))
      ensures line == old(line) && col == old(col) + 1 && errorCount == old(errorCount)
      ensures old(Valid()) ==> Valid() && State() == Advanced(old(State()), 1)
    {
      if next >= |input| {
        cur := '\0';
      } else {
        cur := input[next];
      }
      pos := next;
      next := next + 1;
      col := col + 1;
    }

    /** `skip_whitespace`. */
    method SkipWhitespace()
      requires Valid()
      modifies this
      ensures Valid() && State() == AfterWhitespace(input, old(State()))
    {
      while IsWhitespace(cur)
        invariant Valid()
        invariant AfterWhitespace(input, State()) == AfterWhitespace(input, old(State()))
        decreases |input| - pos
      {
        AfterWhitespaceStep(input, State());
        if cur == '\n' {
          line := line + 1;
          col := 0;
        }
        ReadChar();
      }
      AfterWhitespaceStep(input, State());
    }

    /** `read_identifier`. */
    method ReadIdentifier() returns (value: string)
      requires Valid() && pos <= |input|
      modifies this
      ensures Valid() && Lexeme(Identifier, value, State()) == IdentifierLexeme(input, old(State()))
    {
      var start := pos;
      while IsLetter(cur)
        invariant Valid() && start <= pos <= |input|
        invariant LetterRunEnd(input, pos) == LetterRunEnd(input, start)
        invariant State() == Advanced(old(State()), pos - start)
        decreases |input| - pos
      {
        ReadChar();
      }
      value := input[start..pos];
    }

    /** `read_number`. */
    method ReadNumber() returns (kind: TokenType, value: string)
      requires Valid() && pos <= |input|
      modifies this
      ensures Valid() && Lexeme(kind, value, State()) == NumberLexeme(input, old(State()))
    {
      var start := pos;
      var isFloat := false;
      while IsDigit(cur)
        invariant Valid() && start <= pos <= |input|
        invariant NumberEnd(input, pos, isFloat) == NumberEnd(input, start, false)
        invariant State() == Advanced(old(State()), pos - start)
        decreases |input| - pos
      {
        NumberEndStep(input, pos, isFloat);
        ReadChar();
        if cur == '.' && next < |input| && IsDigit(input[next]) {
          isFloat := true;
          ReadChar();
        }
      }
      NumberEndStep(input, pos, isFloat);
      kind := if isFloat then Float else Int;
      value := input[start..pos];
    }

    /**
     * `read_quote`, with a check that there is something after the opening
     * quote before the loop runs; without it the loop would step past the
     * end of the input (see `QuoteScanOverrunsAtEnd`).
     */
    method ReadQuote() returns (kind: TokenType, value: string)
      requires Valid() && pos < |input|
      modifies this
      ensures Valid() && Lexeme(kind, value, State()) == QuoteLexeme(input, old(State()))
    {
      var quote := cur;
      kind := String;
      if quote == '\'' {
        kind := Char;
      } else if quote == '`' {
        kind := FormString;
      }
      ReadChar();
      var start := pos;
      var closed := ScanQuote(quote);
      value := input[start..pos];
      if closed && quote == '\'' && !IsValidChar(value) {
        errorCount := errorCount + 1;
      }
      ReadChar();
    }

    /**
     * The loop of `read_quote`: step until the closing quote, or count an
     * error and stop when the end of the input comes first.
     */
    method ScanQuote(quote: char) returns (closed: bool)
      requires Valid() && pos <= |input|
      modifies this
      ensures Valid() && (pos, closed) == QuoteBody(input, old(pos), quote)
      ensures line == old(line) && col == old(col) + (pos - old(pos))
      ensures errorCount == old(errorCount) + if closed then 0 else 1
    {
      closed := true;
      var last, last2 := '\0', '\0';
      if pos >= |input| {
        errorCount := errorCount + 1;
        closed := false;
        return;
      }
      while cur != quote || (last == '\\' && last2 != '\\')
        invariant Valid() && old(pos) <= pos < |input|
        invariant QuoteScan(input, pos, quote, last, last2) == QuoteBody(input, old(pos), quote)
        invariant State() == Advanced(old(State()), pos - old(pos))
        decreases |input| - pos
      {
        QuoteScanStep(input, pos, quote, last, last2);
        last2 := last;
        last := cur;
        ReadChar();
        if cur == '\0' {
          errorCount := errorCount + 1;
          closed := false;
          return;
        }
      }
      QuoteScanStep(input, pos, quote, last, last2);
    }

    /** `read_comment`. */
    method ReadComment() returns (value: string)
      requires Valid() && pos <= |input|
      modifies this
      ensures Valid() && Lexeme(Comment, value, State()) == CommentLexeme(input, old(State()))
    {
      var start := pos;
      while cur != '\n' && cur != '\0'
        invariant Valid() && start <= pos <= |input|
        invariant CommentEnd(input, pos) == CommentEnd(input, start)
        invariant State() == Advanced(old(State()), pos - start)
        decreases |input| - pos
      {
        ReadChar();
      }
      value := input[start..pos];
    }

    /**
     * `read_operator`: look up the three-, two- and one-character slices in
     * turn, take the first found, then step over it.
     */
    method ReadOperator(base: TokenType) returns (kind: TokenType, value: string)
      requires Valid()
      modifies this
      ensures Valid() && Lexeme(kind, value, State()) == OperatorLexeme(input, old(State()), base)
    {
      kind := base;
      value := [cur];
      var toScan := 0;
      var offs := 3;
      while offs >= 1
        invariant 0 <= offs <= 3
        invariant toScan == 0 && kind == base && value == [cur]
        invariant OperatorLength(input, pos) <= offs
        decreases offs
      {
        if pos + offs <= |input| {
          var op := input[pos..pos + offs];
          match ParseOp(op) {
            case Some(opKind) =>
              kind := opKind;
              value := op;
              toScan := toScan + offs;
              break;
            case None =>
          }
        }
        offs := offs - 1;
      }
      assert toScan == OperatorLength(input, pos);
      assert Lexeme(kind, value, Advanced(State(), toScan)) == OperatorLexeme(input, State(), base);
      for i := 0 to toScan
        invariant Valid() && State() == Advanced(old(State()), i)
      {
        ReadChar();
      }
    }

    /** `create_token`. */
    method CreateToken(kind: TokenType, value: string) returns (t: Token)
      ensures t == CreateTokenAt(kind, value, State())
    {
      var colOffs := Utf8Len(value);
      if kind.String? || kind.FormString? || kind.Char? {
        colOffs := colOffs + 2;
      }
      t := Token(value, kind, line, col - colOffs);
    }
  
    /** `next_token`. */
    method NextToken() returns (t: Token)
      requires Valid()
      modifies this
      ensures Valid() && (t, State()) == NextTokenOf(input, old(State()))
    {
      var empty := Token("", EOF, line, col);
      SkipWhitespace();
      ghost var w := State();
      NextTokenDispatch(input, old(State()));
      NextTokenDispatchQuoteOrOperator(input, old(State()));
      NextTokenDispatchOther(input, old(State()));

      if cur == '\0' {
        return empty;
      }

      if IsLetter(cur) {
        var value := ReadIdentifier();
        t := CreateToken(Identifier, value);
        return;
      }

      if IsDigit(cur) {
        var kind, value := ReadNumber();
        t := CreateToken(kind, value);
        return;
      }

      if IsQuote(cur) {
        var kind, value := ReadQuote();
        t := CreateToken(kind, value);
        return;
      }

      match ParseOp([cur]) {
        case Some(op) =>
          var kind, value := ReadOperator(op);
          t := CreateToken(kind, value);
          return;
        case None =>
      }

      if cur == ';' {
        var value := ReadComment();
        t := CreateToken(Comment, value);
        return;
      }

      errorCount := errorCount + 1;
      ReadChar();
      t := empty;
    }
  }

  /**
   * What is left to collect, given the tokens collected so far and the
   * token in hand: all of them if that token is EOF, and otherwise that
   * token and what the scan collects from the state `st` on.
   */
  ghost function Continue(s: string, done: seq<Token>, t: Token, st: LexState): (seq<Token>, LexState) {
    if t.kind.EOF? then (done, st)
    else
      var rest := ScanFrom(s, st);
      (done + ([t] + rest.0), rest.1)
  }

  /** The scan from `st` is the next token, then the scan from after it. */
  lemma ScanFromStep(s: string, st: LexState)
    ensures ScanFrom(s, st) == Continue(s, [], NextTokenOf(s, st).0, NextTokenOf(s, st).1)
  {
    var r := NextTokenOf(s, st);
    if !r.0.kind.EOF? {
      var rest := ScanFrom(s, r.1);
      assert [] + ([r.0] + rest.0) == [r.0] + rest.0;
    }
  }

  /** Taking the token in hand over into the collected ones leaves what is left to collect unchanged. */
  lemma ContinueShift(s: string, done: seq<Token>, t: Token, st: LexState)
    requires !t.kind.EOF?
    ensures Continue(s, done, t, st) == Continue(s, done + [t], NextTokenOf(s, st).0, NextTokenOf(s, st).1)
  {
    var r := NextTokenOf(s, st);
    ScanFromStep(s, st);
    ContinueCons(s, done, t, r.0, r.1);
  }

  /** Putting `t` before what is left to collect is collecting it first. */
  lemma ContinueCons(s: string, done: seq<Token>, t: Token, t2: Token, st2: LexState)
    ensures var c := Continue(s, [], t2, st2);
      (done + ([t] + c.0), c.1) == Continue(s, done + [t], t2, st2)
  {
    if !t2.kind.EOF? {
      var rest := ScanFrom(s, st2);
      assert [] + ([t2] + rest.0) == [t2] + rest.0;
      assert done + ([t] + ([t2] + rest.0)) == (done + [t]) + ([t2] + rest.0);
    } else {
      assert done + ([t] + []) == done + [t];
    }
  }

  /**
   * `scan`: collect tokens until the first EOF, then report no source code,
   * or the number of errors, or the tokens.
   */
  method Scan(sourceCode: string, filePath: string) returns (r: Result<seq<Token>, string>)
    ensures r == Scanned(sourceCode, filePath)
  {
    var lexer := new Lexer(sourceCode);
    var tokens: seq<Token> := [];
    var token := lexer.NextToken();
    ScanFromStep(sourceCode, Start);

    while !token.kind.EOF?
      invariant lexer.Valid() && lexer.input == sourceCode
      invariant Continue(sourceCode, tokens, token, lexer.State()) == ScanFrom(sourceCode, Start)
      decreases Remaining(sourceCode, lexer.State()) + if token.kind.EOF? then 0 else 1
    {
      ContinueShift(sourceCode, tokens, token, lexer.State());
      tokens := tokens + [token];
      token := lexer.NextToken();
    }

    if |tokens| == 0 {
      return Err("No source code found in " + filePath);
    }
    if lexer.errorCount > 0 {
      return Err(SyntaxErrors(lexer.errorCount, filePath));
    }
    return Ok(tokens);
  }
}

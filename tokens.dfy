/**
 * Token kinds, the operator table and the token record of the lexer
 * (lib/src/token.rs).
 */
module Tokens {
  import opened Wrappers

  /** Every kind a token can have. */
  datatype TokenType =
    // single-character tokens
    | Hash | Dollar | LeftParen | RightParen | LeftBracket | RightBracket
    | LeftBrace | RightBrace | Comma | Question | At | Underscore
    // one or two characters, by initial character
    | Bang | BangEquals | Percent | PercentEquals | And | AndAnd | AndEquals
    | Star | StarEquals | Plus | PlusEquals | Minus | MinusEquals | RightArrow
    | Slash | SlashEquals | Colon | ColonEquals | ColonColon | Equals
    | EqualsEquals | EqualsArrow | Caret | CaretEquals | Pipe | PipePipe
    | Tilde | TildeEquals
    // one, two or three characters, by initial character
    | LeftAngle | LeftShift | LeftArrow | LessOrEquals | LeftShiftEquals
    | RightAngle | GreaterOrEquals | RightShift | RightShiftEquals
    | Dot | DotQuestion | DotDotQuestion
    // literals
    | Identifier | String | FormString | Char | Int | Float
    // other
    | Comment | EOF

  /** A token: its text, its kind and the line and column it starts at. */
  datatype Token = Token(value: string, kind: TokenType, line: int, col: int)

  /** The kinds that have a fixed spelling in the operator table. */
  predicate IsOperator(k: TokenType) {
    !(k.Identifier? || k.String? || k.FormString? || k.Char? || k.Int? ||
      k.Float? || k.Comment? || k.EOF?)
  }

  /** The kinds whose token text is written between two quote characters. */
  predicate IsQuoted(k: TokenType) {
    k.String? || k.FormString? || k.Char?
  }

  /**
   * The operator table: the kind spelled by `op`, if any. The table is laid
   * out by spelling length and then by character; its entries are those of
   * the source table, one for one.
   */
  function ParseOp(op: string): Option<TokenType> {
    if |op| == 1 then ParseOp1(op[0])
    else if |op| == 2 then ParseOp2(op[0], op[1])
    else if |op| == 3 then ParseOp3(op[0], op[1], op[2])
    else None
  }

  /** The one-character entries. */
  function ParseOp1(c: char): Option<TokenType> {
    match c
    case '#' => Some(Hash)
    case '$' => Some(Dollar)
    case '(' => Some(LeftParen)
    case ')' => Some(RightParen)
    case '[' => Some(LeftBracket)
    case ']' => Some(RightBracket)
    case '{' => Some(LeftBrace)
    case '}' => Some(RightBrace)
    case ',' => Some(Comma)
    case '?' => Some(Question)
    case '@' => Some(At)
    case '_' => Some(Underscore)
    case '~' => Some(Tilde)
    case '|' => Some(Pipe)
    case '^' => Some(Caret)
    case '=' => Some(Equals)
    case ':' => Some(Colon)
    case '/' => Some(Slash)
    case '-' => Some(Minus)
    case '+' => Some(Plus)
    case '*' => Some(Star)
    case '&' => Some(And)
    case '%' => Some(Percent)
    case '!' => Some(Bang)
    case '<' => Some(LeftAngle)
    case '>' => Some(RightAngle)
    case '.' => Some(Dot)
    case _ => None
  }

  /** The two-character entries, by first character. */
  function ParseOp2(c0: char, c1: char): Option<TokenType> {
    match c0
    case '~' => if c1 == '=' then Some(TildeEquals) else None
    case '|' => if c1 == '|' then Some(PipePipe) else None
    case '^' => if c1 == '=' then Some(CaretEquals) else None
    case '=' => if c1 == '>' then Some(EqualsArrow) else if c1 == '=' then Some(EqualsEquals) else None
    case ':' => if c1 == '=' then Some(ColonEquals) else if c1 == ':' then Some(ColonColon) else None
    case '/' => if c1 == '=' then Some(SlashEquals) else None
    case '-' => if c1 == '>' then Some(RightArrow) else if c1 == '=' then Some(MinusEquals) else None
    case '+' => if c1 == '=' then Some(PlusEquals) else None
    case '*' => if c1 == '=' then Some(StarEquals) else None
    case '&' => if c1 == '=' then Some(AndEquals) else if c1 == '&' then Some(AndAnd) else None
    case '%' => if c1 == '=' then Some(PercentEquals) else None
    case '!' => if c1 == '=' then Some(BangEquals) else None
    case '<' => if c1 == '<' then Some(LeftShift) else if c1 == '=' then Some(LessOrEquals) else if c1 == '-' then Some(LeftArrow) else None
    case '>' => if c1 == '>' then Some(RightShift) else if c1 == '=' then Some(GreaterOrEquals) else None
    case '.' => if c1 == '?' then Some(DotQuestion) else None
    case _ => None
  }

  /** The three-character entries, by first character. */
  function ParseOp3(c0: char, c1: char, c2: char): Option<TokenType> {
    match c0
    case '<' => if c1 == '<' && c2 == '=' then Some(LeftShiftEquals) else None
    case '>' => if c1 == '>' && c2 == '=' then Some(RightShiftEquals) else None
    case '.' => if c1 == '.' && c2 == '?' then Some(DotDotQuestion) else None
    case _ => None
  }

  /**
   * The spelling of an operator kind, written independently of the table
   * above, kind by kind as the enumeration lists them.
   */
  function Spelling(k: TokenType): string
    requires IsOperator(k)
  {
    match k
    case Hash => "#"
    case Dollar => "$"
    case LeftParen => "("
    case RightParen => ")"
    case LeftBracket => "["
    case RightBracket => "]"
    case LeftBrace => "{"
    case RightBrace => "}"
    case Comma => ","
    case Question => "?"
    case At => "@"
    case Underscore => "_"
    case Bang => "!"
    case BangEquals => "!="
    case Percent => "%"
    case PercentEquals => "%="
    case And => "&"
    case AndAnd => "&&"
    case AndEquals => "&="
    case Star => "*"
    case StarEquals => "*="
    case Plus => "+"
    case PlusEquals => "+="
    case Minus => "-"
    case MinusEquals => "-="
    case RightArrow => "->"
    case Slash => "/"
    case SlashEquals => "/="
    case Colon => ":"
    case ColonEquals => ":="
    case ColonColon => "::"
    case Equals => "="
    case EqualsEquals => "=="
    case EqualsArrow => "=>"
    case Caret => "^"
    case CaretEquals => "^="
    case Pipe => "|"
    case PipePipe => "||"
    case Tilde => "~"
    case TildeEquals => "~="
    case LeftAngle => "<"
    case LeftShift => "<<"
    case LeftArrow => "<-"
    case LessOrEquals => "<="
    case LeftShiftEquals => "<<="
    case RightAngle => ">"
    case GreaterOrEquals => ">="
    case RightShift => ">>"
    case RightShiftEquals => ">>="
    case Dot => "."
    case DotQuestion => ".?"
    case DotDotQuestion => "..?"
  }

  /** Every operator kind is found under its own spelling. */
  lemma SpellingParses(k: TokenType)
    requires IsOperator(k)
    ensures ParseOp(Spelling(k)) == Some(k)
  {
    match k
    case Hash => assert ParseOp("#") == Some(Hash);
    case Dollar => assert ParseOp("$") == Some(Dollar);
    case LeftParen => assert ParseOp("(") == Some(LeftParen);
    case RightParen => assert ParseOp(")") == Some(RightParen);
    case LeftBracket => assert ParseOp("[") == Some(LeftBracket);
    case RightBracket => assert ParseOp("]") == Some(RightBracket);
    case LeftBrace => assert ParseOp("{") == Some(LeftBrace);
    case RightBrace => assert ParseOp("}") == Some(RightBrace);
    case Comma => assert ParseOp(",") == Some(Comma);
    case Question => assert ParseOp("?") == Some(Question);
    case At => assert ParseOp("@") == Some(At);
    case Underscore => assert ParseOp("_") == Some(Underscore);
    case TildeEquals => assert ParseOp("~=") == Some(TildeEquals);
    case Tilde => assert ParseOp("~") == Some(Tilde);
    case PipePipe => assert ParseOp("||") == Some(PipePipe);
    case Pipe => assert ParseOp("|") == Some(Pipe);
    case CaretEquals => assert ParseOp("^=") == Some(CaretEquals);
    case Caret => assert ParseOp("^") == Some(Caret);
    case EqualsArrow => assert ParseOp("=>") == Some(EqualsArrow);
    case EqualsEquals => assert ParseOp("==") == Some(EqualsEquals);
    case Equals => assert ParseOp("=") == Some(Equals);
    case ColonEquals => assert ParseOp(":=") == Some(ColonEquals);
    case ColonColon => assert ParseOp("::") == Some(ColonColon);
    case Colon => assert ParseOp(":") == Some(Colon);
    case SlashEquals => assert ParseOp("/=") == Some(SlashEquals);
    case Slash => assert ParseOp("/") == Some(Slash);
    case RightArrow => assert ParseOp("->") == Some(RightArrow);
    case MinusEquals => assert ParseOp("-=") == Some(MinusEquals);
    case Minus => assert ParseOp("-") == Some(Minus);
    case PlusEquals => assert ParseOp("+=") == Some(PlusEquals);
    case Plus => assert ParseOp("+") == Some(Plus);
    case StarEquals => assert ParseOp("*=") == Some(StarEquals);
    case Star => assert ParseOp("*") == Some(Star);
    case AndEquals => assert ParseOp("&=") == Some(AndEquals);
    case AndAnd => assert ParseOp("&&") == Some(AndAnd);
    case And => assert ParseOp("&") == Some(And);
    case PercentEquals => assert ParseOp("%=") == Some(PercentEquals);
    case Percent => assert ParseOp("%") == Some(Percent);
    case BangEquals => assert ParseOp("!=") == Some(BangEquals);
    case Bang => assert ParseOp("!") == Some(Bang);
    case LeftShiftEquals => assert ParseOp("<<=") == Some(LeftShiftEquals);
    case LeftShift => assert ParseOp("<<") == Some(LeftShift);
    case LessOrEquals => assert ParseOp("<=") == Some(LessOrEquals);
    case LeftArrow => assert ParseOp("<-") == Some(LeftArrow);
    case LeftAngle => assert ParseOp("<") == Some(LeftAngle);
    case RightShiftEquals => assert ParseOp(">>=") == Some(RightShiftEquals);
    case RightShift => assert ParseOp(">>") == Some(RightShift);
    case GreaterOrEquals => assert ParseOp(">=") == Some(GreaterOrEquals);
    case RightAngle => assert ParseOp(">") == Some(RightAngle);
    case DotDotQuestion => assert ParseOp("..?") == Some(DotDotQuestion);
    case DotQuestion => assert ParseOp(".?") == Some(DotQuestion);
    case Dot => assert ParseOp(".") == Some(Dot);
    case _ =>
  }

  /** Whatever the table finds is an operator kind spelled exactly `s`. */
  lemma ParsedIsSpelling(s: string)
    requires ParseOp(s).Some?
    ensures IsOperator(ParseOp(s).value) && Spelling(ParseOp(s).value) == s
  {
    if |s| == 1 {
      assert s == [s[0]];
      OneCharIsSpelling(s[0]);
    } else if |s| == 2 {
      assert s == [s[0], s[1]];
      TwoCharIsSpelling(s[0], s[1]);
    } else {
      assert s == [s[0], s[1], s[2]];
      ThreeCharIsSpelling(s[0], s[1], s[2]);
    }
  }

  lemma OneCharIsSpelling(c: char)
    requires ParseOp1(c).Some?
    ensures IsOperator(ParseOp1(c).value) && Spelling(ParseOp1(c).value) == [c]
  {
  }

  lemma TwoCharIsSpelling(c0: char, c1: char)
    requires ParseOp2(c0, c1).Some?
    ensures IsOperator(ParseOp2(c0, c1).value) && Spelling(ParseOp2(c0, c1).value) == [c0, c1]
  {
  }

  lemma ThreeCharIsSpelling(c0: char, c1: char, c2: char)
    requires ParseOp3(c0, c1, c2).Some?
    ensures IsOperator(ParseOp3(c0, c1, c2).value) && Spelling(ParseOp3(c0, c1, c2).value) == [c0, c1, c2]
  {
  }

  /**
   * The table answers exactly for the listed spellings: `ParseOp(s)` is
   * `Some(k)` if and only if `k` is an operator kind spelled `s`. So it never
   * yields a literal, comment or end-of-file kind.
   */
  lemma ParseOpExactly(s: string, k: TokenType)
    ensures ParseOp(s) == Some(k) <==> IsOperator(k) && Spelling(k) == s
  {
    if ParseOp(s).Some? {
      ParsedIsSpelling(s);
    }
    if IsOperator(k) {
      SpellingParses(k);
    }
  }

  /** No kind is produced by two different spellings. */
  lemma ParseOpInjective(s1: string, s2: string)
    requires ParseOp(s1).Some? && ParseOp(s1) == ParseOp(s2)
    ensures s1 == s2
  {
    ParsedIsSpelling(s1);
    ParsedIsSpelling(s2);
  }

  /**
   * Every spelling has one to three characters, and the three-character
   * ones are exactly "<<=", ">>=" and "..?".
   */
  lemma SpellingLength(s: string)
    requires ParseOp(s).Some?
    ensures 1 <= |s| <= 3
    ensures |s| == 3 <==> s == "<<=" || s == ">>=" || s == "..?"
  {
  }

  /**
   * The first character of every spelling is a spelling by itself, which is
   * what lets the lexer fall back to a one-character operator.
   */
  lemma SpellingPrefixIsSpelling(s: string)
    requires ParseOp(s).Some?
    ensures ParseOp(s[..1]).Some?
  {
    assert s[..1] == [s[0]];
  }

  /** Characters that are no spelling on their own. */
  lemma NotInTable()
    ensures ParseOp(";") == None && ParseOp("..") == None
    ensures ParseOp("\"") == None && ParseOp("'") == None && ParseOp("`") == None
    ensures ParseOp(" ") == None && ParseOp("\n") == None
    ensures ParseOp("a") == None && ParseOp("0") == None && ParseOp("") == None
  {
  }

  /** Every spelling is plain ASCII, so its byte length is its length. */
  lemma SpellingIsAscii(s: string)
    requires ParseOp(s).Some?
    ensures forall i :: 0 <= i < |s| ==> s[i] as int < 0x80
  {
    if |s| == 1 {
      OneCharIsAscii(s[0]);
    } else if |s| == 2 {
      TwoCharIsAscii(s[0], s[1]);
    } else {
      ThreeCharIsAscii(s[0], s[1], s[2]);
    }
  }

  lemma OneCharIsAscii(c: char)
    requires ParseOp1(c).Some?
    ensures c as int < 0x80
  {
  }

  lemma TwoCharIsAscii(c0: char, c1: char)
    requires ParseOp2(c0, c1).Some?
    ensures c0 as int < 0x80 && c1 as int < 0x80
  {
  }

  lemma ThreeCharIsAscii(c0: char, c1: char, c2: char)
    requires ParseOp3(c0, c1, c2).Some?
    ensures c0 as int < 0x80 && c1 as int < 0x80 && c2 as int < 0x80
  {
  }
}

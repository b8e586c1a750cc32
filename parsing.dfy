/**
 * The recursive-descent parser (lib/src/parser.rs): a precedence ladder
 * equality > comparison > term > factor > unary > primary over an index into
 * an immutable token list.
 *
 * Each grammar rule is specified by a pure function from a token list and a
 * position to an `Outcome`: the tree or the error, and the position the
 * cursor is left at. The `Parser` class mirrors the source's methods and is
 * proved to agree with those functions. The binary levels are numbered
 * 4 (equality) down to 1 (factor).
 */
module Parsing {
  import opened Wrappers
  import opened Tokens
  import opened Exprs
  import Lexing

  /** The two ways a grammar rule fails. */
  datatype ParseError =
      /** `primary` found a token that starts no expression. */
    | UnexpectedToken(found: Token)
      /** `expect` found `found` where it wanted another kind. */
    | ExpectFailed(found: Token, message: string)

  /** What a rule returns, and where it leaves the cursor. */
  datatype Outcome = Outcome(result: Result<Expr, ParseError>, pos: nat)

  const MissingParen: string := "Missing ')' after expression"

  // ---------------------------------------------------------------------
  // The operator lists each rule matches
  // ---------------------------------------------------------------------

  const EqualityOps: seq<TokenType> := [BangEquals, EqualsEquals]
  const ComparisonOps: seq<TokenType> := [RightAngle, LeftAngle, GreaterOrEquals, LessOrEquals]
  const TermOps: seq<TokenType> := [Minus, Plus]
  const FactorOps: seq<TokenType> := [Star, Slash]
  const UnaryOps: seq<TokenType> := [Bang, Minus]
  const LiteralKinds: seq<TokenType> := [Underscore, Int, Float, Char, String, FormString]

  /** The operators of binary level `level`: 4 equality, 3 comparison, 2 term, 1 factor. */
  function LevelOps(level: nat): seq<TokenType>
    requires 1 <= level <= 4
  {
    if level == 4 then EqualityOps
    else if level == 3 then ComparisonOps
    else if level == 2 then TermOps
    else FactorOps
  }

  /**
   * How loosely a kind binds as a binary operator: 1 for the tightest
   * (factor) up to 4 (equality), and 5 for a kind that is no binary operator.
   */
  function OpLevel(k: TokenType): (n: nat)
    ensures 1 <= n <= 5
  {
    if k.Star? || k.Slash? then 1
    else if k.Minus? || k.Plus? then 2
    else if k.RightAngle? || k.LeftAngle? || k.GreaterOrEquals? || k.LessOrEquals? then 3
    else if k.BangEquals? || k.EqualsEquals? then 4
    else 5
  }

  /** The operator lists of the four levels are exactly the kinds of each binding level. */
  lemma OpLevelExact(k: TokenType, level: nat)
    requires 1 <= level <= 4
    ensures k in LevelOps(level) <==> OpLevel(k) == level
  {
    if level == 4 {
      assert k in EqualityOps <==> k.BangEquals? || k.EqualsEquals?;
    } else if level == 3 {
      assert k in ComparisonOps <==> k.RightAngle? || k.LeftAngle? || k.GreaterOrEquals? || k.LessOrEquals?;
    } else if level == 2 {
      assert k in TermOps <==> k.Minus? || k.Plus?;
    } else {
      assert k in FactorOps <==> k.Star? || k.Slash?;
    }
  }

  /** `match_types` with a level's operators matches exactly the tokens of that binding level. */
  lemma MatchesLevel(t: Token, level: nat)
    requires 1 <= level <= 4
    ensures MatchesAny(t, LevelOps(level)) <==> OpLevel(t.kind) == level
  {
    OpLevelExact(t.kind, level);
  }

  /** The kinds `unary` takes as prefix operators. */
  predicate IsUnaryOp(k: TokenType) {
    k.Bang? || k.Minus?
  }

  /** The kinds `primary` turns into a literal. */
  predicate IsLiteralKind(k: TokenType) {
    k.Underscore? || k.Int? || k.Float? || k.Char? || k.String? || k.FormString?
  }

  /** The list `unary` passes to `match_types` holds exactly the prefix operators. */
  lemma UnaryOpsExact(k: TokenType)
    ensures k in UnaryOps <==> IsUnaryOp(k)
  {
    assert k in UnaryOps <==> k == Bang || k == Minus;
  }

  /** The list `primary` passes to `match_types` holds exactly the literal kinds. */
  lemma LiteralKindsExact(k: TokenType)
    ensures k in LiteralKinds <==> IsLiteralKind(k)
  {
    assert k in LiteralKinds <==>
      k == Underscore || k == Int || k == Float || k == Char || k == String || k == FormString;
  }

  /** `match_types` on a token: it is not EOF and its kind is one of `kinds`. */
  predicate MatchesAny(t: Token, kinds: seq<TokenType>) {
    !t.kind.EOF? && t.kind in kinds
  }

  // ---------------------------------------------------------------------
  // Where an EOF lies ahead
  // ---------------------------------------------------------------------

  /**
   * There is an EOF token at `pos` or after it. `peek` and `previous` index
   * the list directly, so the parser needs one: it never steps past it.
   */
  ghost predicate EofAhead(toks: seq<Token>, pos: nat) {
    exists j :: pos <= j < |toks| && toks[j].kind.EOF?
  }

  lemma EofAheadBound(toks: seq<Token>, pos: nat)
    requires EofAhead(toks, pos)
    ensures pos < |toks|
  {
  }

  /** Stepping over a token other than EOF keeps an EOF ahead. */
  lemma EofAheadStep(toks: seq<Token>, pos: nat)
    requires EofAhead(toks, pos) && pos < |toks| && !toks[pos].kind.EOF?
    ensures EofAhead(toks, pos + 1)
  {
    var j :| pos <= j < |toks| && toks[j].kind.EOF?;
    assert pos + 1 <= j;
  }

  lemma EofAheadEarlier(toks: seq<Token>, p: nat, q: nat)
    requires p <= q && EofAhead(toks, q)
    ensures EofAhead(toks, p)
  {
    var j :| q <= j < |toks| && toks[j].kind.EOF?;
    assert p <= j;
  }

  /** Where a rule may stop: at or after `pos`, before an EOF, naming the token it failed on. */
  ghost predicate Stopped(toks: seq<Token>, pos: nat, r: Outcome) {
    pos <= r.pos < |toks| && EofAhead(toks, r.pos)
    && (r.result.Err? ==> r.result.error.found == toks[r.pos])
  }

  /** As `Stopped`, and a success consumes at least one token. */
  ghost predicate Progress(toks: seq<Token>, pos: nat, r: Outcome) {
    Stopped(toks, pos, r) && (r.result.Ok? ==> pos < r.pos)
  }

  // ---------------------------------------------------------------------
  // The shape of the trees the parser builds
  // ---------------------------------------------------------------------

  /** The binding level of a tree's root: its operator's level, 0 for a unary node, -1 otherwise. */
  function Tier(e: Expr): int {
    match e
    case Binary(_, op, _) => OpLevel(op.kind)
    case Unary(_, _) => 0
    case _ => -1
  }

  /**
   * A tree the grammar can produce: each binary node's operator is one of
   * the ten level operators, its left operand binds no looser and its right
   * operand strictly tighter (left associativity and precedence); each unary
   * node holds `!` or `-` over a unary or primary; each literal holds one of
   * the six literal kinds; no node is an assignment. No node holds EOF.
   */
  predicate WellShaped(e: Expr) {
    match e
    case Binary(l, op, r) =>
      OpLevel(op.kind) <= 4 && Tier(l) <= OpLevel(op.kind) && Tier(r) < OpLevel(op.kind)
      && WellShaped(l) && WellShaped(r)
    case Unary(op, r) => IsUnaryOp(op.kind) && Tier(r) <= 0 && WellShaped(r)
    case Literal(t) => IsLiteralKind(t.kind)
    case Grouping(inner) => WellShaped(inner)
    case Assign(_, _) => false
  }

  const OpenParen: Token := Token("(", LeftParen, 0, 0)
  const CloseParen: Token := Token(")", RightParen, 0, 0)

  /**
   * The tokens a tree is written with: operands in order, a grouping
   * between parentheses. The tree keeps no parenthesis tokens, so these two
   * stand for any `(` and `)`: `Spans` matches them by kind alone.
   */
  function Flatten(e: Expr): seq<Token> {
    match e
    case Binary(l, op, r) => Flatten(l) + [op] + Flatten(r)
    case Unary(op, r) => [op] + Flatten(r)
    case Literal(t) => [t]
    case Grouping(inner) => [OpenParen] + Flatten(inner) + [CloseParen]
    case Assign(name, v) => [name] + Flatten(v)
  }

  // ---------------------------------------------------------------------
  // The grammar rules, as functions of the token list and the position
  // ---------------------------------------------------------------------

  /** `expression`: an equality. */
  function ExpressionOf(toks: seq<Token>, pos: nat): (r: Outcome)
    requires EofAhead(toks, pos)
    ensures Progress(toks, pos, r)
    ensures r.result.Ok? ==> WellShaped(r.result.value)
    decreases |toks| - pos, 15
  {
    LevelOf(toks, pos, 4)
  }

  /** `equality`, `comparison`, `term` and `factor`: an operand, then the loop. */
  function LevelOf(toks: seq<Token>, pos: nat, level: nat): (r: Outcome)
    requires 1 <= level <= 4 && EofAhead(toks, pos)
    ensures Progress(toks, pos, r)
    ensures r.result.Ok? ==> WellShaped(r.result.value) && Tier(r.result.value) <= level
    decreases |toks| - pos, 3 * level + 1
  {
    var left := OperandOf(toks, pos, level);
    if left.result.Err? then left
    else LevelLoop(toks, level, left.result.value, left.pos)
  }

  /** The operand of binary level `level`: the next tighter level, or `unary` below factor. */
  function OperandOf(toks: seq<Token>, pos: nat, level: nat): (r: Outcome)
    requires 1 <= level <= 4 && EofAhead(toks, pos)
    ensures Progress(toks, pos, r)
    ensures r.result.Ok? ==> WellShaped(r.result.value) && Tier(r.result.value) < level
    decreases |toks| - pos, 3 * level
  {
    if level == 1 then UnaryOf(toks, pos) else LevelOf(toks, pos, level - 1)
  }

  /**
   * The `while` loop of a binary level: while the token at `p` is one of
   * the level's operators (`OpLevelExact`), parse an operand after it and fold it into
   * `left` as the right operand.
   */
  function LevelLoop(toks: seq<Token>, level: nat, left: Expr, p: nat): (r: Outcome)
    requires 1 <= level <= 4 && EofAhead(toks, p)
    ensures Stopped(toks, p, r)
    ensures WellShaped(left) && Tier(left) <= level && r.result.Ok? ==>
      WellShaped(r.result.value) && Tier(r.result.value) <= level
    decreases |toks| - p, 0
  {
    EofAheadBound(toks, p);
    var op := toks[p];
    if OpLevel(op.kind) == level then
      EofAheadStep(toks, p);
      var right := OperandOf(toks, p + 1, level);
      if right.result.Err? then right
      else LevelLoop(toks, level, Expr.Binary(left, op, right.result.value), right.pos)
    else
      Outcome(Ok(left), p)
  }

  /** One turn of the loop: the token at `p` is an operator of the level. */
  lemma LevelLoopTurn(toks: seq<Token>, level: nat, left: Expr, p: nat)
    requires 1 <= level <= 4 && EofAhead(toks, p) && p < |toks|
    requires OpLevel(toks[p].kind) == level
    ensures EofAhead(toks, p + 1)
    ensures var right := OperandOf(toks, p + 1, level);
      LevelLoop(toks, level, left, p) ==
        if right.result.Err? then right
        else LevelLoop(toks, level, Expr.Binary(left, toks[p], right.result.value), right.pos)
  {
    EofAheadStep(toks, p);
  }

  /** A turn whose operand was read folds it into the left operand and goes on after it. */
  lemma LevelLoopFold(toks: seq<Token>, level: nat, left: Expr, p: nat, right: Expr, q: nat)
    requires 1 <= level <= 4 && EofAhead(toks, p + 1) && p < |toks| && OpLevel(toks[p].kind) == level
    requires OperandOf(toks, p + 1, level) == Outcome(Ok(right), q)
    ensures EofAhead(toks, p) && EofAhead(toks, q)
    ensures LevelLoop(toks, level, left, p) == LevelLoop(toks, level, Expr.Binary(left, toks[p], right), q)
  {
    EofAheadEarlier(toks, p, p + 1);
    LevelLoopTurn(toks, level, left, p);
  }

  /** The loop ends at a token that is no operator of the level. */
  lemma LevelLoopEnd(toks: seq<Token>, level: nat, left: Expr, p: nat)
    requires 1 <= level <= 4 && EofAhead(toks, p) && p < |toks|
    requires OpLevel(toks[p].kind) != level
    ensures LevelLoop(toks, level, left, p) == Outcome(Ok(left), p)
  {
  }

  /** `unary`: prefix `!` and `-` nest to the right, down to a primary. */
  function UnaryOf(toks: seq<Token>, pos: nat): (r: Outcome)
    requires EofAhead(toks, pos)
    ensures Progress(toks, pos, r)
    ensures r.result.Ok? ==> WellShaped(r.result.value) && Tier(r.result.value) <= 0
    decreases |toks| - pos, 1
  {
    EofAheadBound(toks, pos);
    var op := toks[pos];
    if IsUnaryOp(op.kind) then
      EofAheadStep(toks, pos);
      var right := UnaryOf(toks, pos + 1);
      if right.result.Err? then right
      else Outcome(Ok(Expr.Unary(op, right.result.value)), right.pos)
    else
      PrimaryOf(toks, pos)
  }

  /**
   * `primary`: a literal, or a parenthesised expression that must be
   * closed, and an error at any other token.
   */
  function PrimaryOf(toks: seq<Token>, pos: nat): (r: Outcome)
    requires EofAhead(toks, pos)
    ensures Progress(toks, pos, r)
    ensures r.result.Ok? ==> WellShaped(r.result.value) && Tier(r.result.value) < 0
    decreases |toks| - pos, 0
  {
    EofAheadBound(toks, pos);
    var t := toks[pos];
    if IsLiteralKind(t.kind) then
      EofAheadStep(toks, pos);
      Outcome(Ok(Expr.Literal(t)), pos + 1)
    else if t.kind.LeftParen? then
      EofAheadStep(toks, pos);
      GroupOf(toks, pos + 1)
    else
      Outcome(Err(UnexpectedToken(t)), pos)
  }

  /** The rest of `primary` after a `(`: an expression, then `expect` a `)`. */
  function GroupOf(toks: seq<Token>, pos: nat): (r: Outcome)
    requires EofAhead(toks, pos)
    ensures Progress(toks, pos, r)
    ensures r.result.Ok? ==> WellShaped(r.result.value) && Tier(r.result.value) < 0
    decreases |toks| - pos, 16
  {
    var inner := ExpressionOf(toks, pos);
    if inner.result.Err? then inner
    else if toks[inner.pos].kind.RightParen? then
      EofAheadStep(toks, inner.pos);
      Outcome(Ok(Expr.Grouping(inner.result.value)), inner.pos + 1)
    else
      Outcome(Err(ExpectFailed(toks[inner.pos], MissingParen)), inner.pos)
  }

  /** `parse`: the leading expression, or one generic message for any error. */
  function Parsed(toks: seq<Token>, file: string): Result<Expr, string>
    requires EofAhead(toks, 0)
  {
    var o := ExpressionOf(toks, 0);
    if o.result.Ok? then Ok(o.result.value)
    else Err("syntax error encountered in " + file)
  }

  // ---------------------------------------------------------------------
  // Parsing a flattened tree gives the tree back
  // ---------------------------------------------------------------------

  /**
   * Token `t` of the list is written as `u`: a parenthesis of the same kind
   * where `u` is one (the parser looks at nothing else of it), and `u`
   * itself otherwise.
   */
  predicate Fits(t: Token, u: Token) {
    if u.kind.LeftParen? then t.kind.LeftParen?
    else if u.kind.RightParen? then t.kind.RightParen?
    else t == u
  }

  /** The list from `p` on is written as `s`, token by token. */
  ghost predicate Spans(toks: seq<Token>, p: nat, s: seq<Token>) {
    p + |s| <= |toks| && forall i :: 0 <= i < |s| ==> Fits(toks[p + i], s[i])
  }

  /** A slice equal to `s` is written as `s`. */
  lemma SpansExactly(toks: seq<Token>, p: nat, s: seq<Token>)
    requires p + |s| <= |toks| && toks[p..p + |s|] == s
    ensures Spans(toks, p, s)
  {
    forall i | 0 <= i < |s| ensures Fits(toks[p + i], s[i]) {
      assert toks[p + i] == toks[p..p + |s|][i];
    }
  }

  lemma SpansSplit(toks: seq<Token>, p: nat, s1: seq<Token>, s2: seq<Token>)
    requires Spans(toks, p, s1 + s2)
    ensures Spans(toks, p, s1) && Spans(toks, p + |s1|, s2)
  {
    forall i | 0 <= i < |s1| ensures Fits(toks[p + i], s1[i]) {
      assert s1[i] == (s1 + s2)[i];
    }
    forall i | 0 <= i < |s2| ensures Fits(toks[p + |s1| + i], s2[i]) {
      assert s2[i] == (s1 + s2)[|s1| + i];
    }
  }

  lemma SpansJoin(toks: seq<Token>, p: nat, s1: seq<Token>, s2: seq<Token>, q: nat)
    requires Spans(toks, p, s1) && q == p + |s1| && Spans(toks, q, s2)
    ensures Spans(toks, p, s1 + s2)
  {
    forall i | 0 <= i < |s1 + s2| ensures Fits(toks[p + i], (s1 + s2)[i]) {
      if i >= |s1| {
        assert toks[p + i] == toks[q + (i - |s1|)];
      }
    }
  }

  /** The tokens of a binary node: the left operand's, the operator, the right operand's. */
  lemma BinaryTokens(toks: seq<Token>, p: nat, a: seq<Token>, o: Token, b: seq<Token>, pa: nat, q: nat)
    requires Spans(toks, p, a + [o] + b) && pa == p + |a| && q == p + |a + [o] + b|
    ensures Spans(toks, p, a) && pa < |toks| && Fits(toks[pa], o) && Spans(toks, pa + 1, b) && q == pa + 1 + |b|
  {
    SpansSplit(toks, p, a + [o], b);
    SpansSplit(toks, p, a, [o]);
    assert Fits(toks[pa + 0], [o][0]);
  }

  /** Where `u` is a binary operator, only `u` itself is written as `u`. */
  lemma OperatorFits(t: Token, u: Token)
    requires OpLevel(u.kind) <= 4 && Fits(t, u)
    ensures t == u
  {
  }

  /** The tokens of a grouping: `(`, the inner tree's, `)`. */
  lemma GroupTokens(toks: seq<Token>, p: nat, inner: seq<Token>, q: nat)
    requires Spans(toks, p, [OpenParen] + inner + [CloseParen]) && q == p + 1 + |inner|
    ensures toks[p].kind.LeftParen? && Spans(toks, p + 1, inner)
    ensures q < |toks| && toks[q].kind.RightParen? && q + 1 == p + |[OpenParen] + inner + [CloseParen]|
  {
    SpansSplit(toks, p, [OpenParen] + inner, [CloseParen]);
    SpansSplit(toks, p, [OpenParen], inner);
    assert Fits(toks[p + 0], [OpenParen][0]);
    assert Fits(toks[q + 0], [CloseParen][0]);
  }

  /**
   * The token at `q` ends an expression of binding level `level`: an EOF
   * lies ahead and it is no binary operator of that level or a tighter one.
   */
  ghost predicate Follows(toks: seq<Token>, q: nat, level: nat) {
    q < |toks| && EofAhead(toks, q) && OpLevel(toks[q].kind) > level
  }

  /** A unary or primary tree is read back by `unary`, whatever follows it. */
  lemma {:induction false} UnaryRoundTrip(toks: seq<Token>, p: nat, e: Expr)
    requires WellShaped(e) && Tier(e) <= 0 && Spans(toks, p, Flatten(e))
    requires EofAhead(toks, p + |Flatten(e)|)
    ensures EofAhead(toks, p) && UnaryOf(toks, p) == Outcome(Ok(e), p + |Flatten(e)|)
    decreases e, 0, 1
  {
    if e.Unary? {
      UnaryNodeRoundTrip(toks, p, e);
    } else if e.Literal? {
      assert Fits(toks[p + 0], Flatten(e)[0]);
      EofAheadEarlier(toks, p, p + 1);
    } else {
      GroupRoundTrip(toks, p, e);
    }
  }

  /** A prefix operator is read, then the tree after it. */
  lemma {:induction false} UnaryNodeRoundTrip(toks: seq<Token>, p: nat, e: Expr)
    requires e.Unary? && WellShaped(e) && Spans(toks, p, Flatten(e))
    requires EofAhead(toks, p + |Flatten(e)|)
    ensures EofAhead(toks, p) && UnaryOf(toks, p) == Outcome(Ok(e), p + |Flatten(e)|)
    decreases e, 0, 0
  {
    SpansSplit(toks, p, [e.operator], Flatten(e.right));
    assert Fits(toks[p + 0], [e.operator][0]);
    UnaryRoundTrip(toks, p + 1, e.right);
    EofAheadEarlier(toks, p, p + 1);
  }

  /** A grouping is read as `(`, the inner tree, and the `)` that `expect` wants. */
  lemma {:induction false} GroupRoundTrip(toks: seq<Token>, p: nat, e: Expr)
    requires e.Grouping? && WellShaped(e) && Spans(toks, p, Flatten(e))
    requires EofAhead(toks, p + |Flatten(e)|)
    ensures EofAhead(toks, p) && UnaryOf(toks, p) == Outcome(Ok(e), p + |Flatten(e)|)
    decreases e, 0, 0
  {
    var inner := e.expr;
    var q := p + 1 + |Flatten(inner)|;
    GroupTokens(toks, p, Flatten(inner), q);
    EofAheadEarlier(toks, q, q + 1);
    LevelRoundTrip(toks, p + 1, inner, 4);
    GroupFold(toks, p, inner, q);
  }

  /** `(`, an expression read up to `q`, and a `)` at `q` make a grouping. */
  lemma GroupFold(toks: seq<Token>, p: nat, inner: Expr, q: nat)
    requires p < |toks| && toks[p].kind.LeftParen? && EofAhead(toks, p + 1)
    requires LevelOf(toks, p + 1, 4) == Outcome(Ok(inner), q) && q < |toks| && toks[q].kind.RightParen?
    ensures EofAhead(toks, p) && UnaryOf(toks, p) == Outcome(Ok(Expr.Grouping(inner)), q + 1)
  {
    EofAheadEarlier(toks, p, p + 1);
    assert GroupOf(toks, p + 1) == Outcome(Ok(Expr.Grouping(inner)), q + 1);
  }

  /** An operand of level `level` is read back by the rule below that level. */
  lemma {:induction false} OperandRoundTrip(toks: seq<Token>, p: nat, e: Expr, level: nat)
    requires 1 <= level <= 4 && WellShaped(e) && Tier(e) < level && Spans(toks, p, Flatten(e))
    requires Follows(toks, p + |Flatten(e)|, level - 1)
    ensures EofAhead(toks, p) && OperandOf(toks, p, level) == Outcome(Ok(e), p + |Flatten(e)|)
    decreases e, level, 0
  {
    if level == 1 {
      UnaryRoundTrip(toks, p, e);
    } else {
      LevelRoundTrip(toks, p, e, level - 1);
    }
  }

  /**
   * A tree of level at most `level` followed by a token that ends such an
   * expression is read back whole by the rule of that level.
   */
  lemma {:induction false} LevelRoundTrip(toks: seq<Token>, p: nat, e: Expr, level: nat)
    requires 1 <= level <= 4 && WellShaped(e) && Tier(e) <= level && Spans(toks, p, Flatten(e))
    requires Follows(toks, p + |Flatten(e)|, level)
    ensures EofAhead(toks, p) && LevelOf(toks, p, level) == Outcome(Ok(e), p + |Flatten(e)|)
    decreases e, level, 2
  {
    var q := p + |Flatten(e)|;
    LevelPrefixRoundTrip(toks, p, e, level, q);
    OpLevelExact(toks[q].kind, level);
    LevelLoopEnd(toks, level, e, q);
  }

  /**
   * Left associativity: when an operator of the same level follows, the
   * rule of that level has read the tree (its tokens end before `q`) and
   * its loop goes on from there.
   */
  lemma {:induction false} LevelPrefixRoundTrip(toks: seq<Token>, p: nat, e: Expr, level: nat, q: nat)
    requires 1 <= level <= 4 && WellShaped(e) && Tier(e) <= level && Spans(toks, p, Flatten(e))
    requires q == p + |Flatten(e)| && Follows(toks, q, level - 1)
    ensures EofAhead(toks, p) && EofAhead(toks, q)
    ensures LevelOf(toks, p, level) == LevelLoop(toks, level, e, q)
    decreases e, level, 1
  {
    if Tier(e) < level {
      OperandRoundTrip(toks, p, e, level);
    } else {
      BinaryPrefixRoundTrip(toks, p, e, level, q);
    }
  }

  /** A binary node of the level: its left operand is read, then one turn of the loop. */
  lemma {:induction false} BinaryPrefixRoundTrip(toks: seq<Token>, p: nat, e: Expr, level: nat, q: nat)
    requires 1 <= level <= 4 && e.Binary? && WellShaped(e) && Tier(e) == level
    requires Spans(toks, p, Flatten(e)) && q == p + |Flatten(e)| && Follows(toks, q, level - 1)
    ensures EofAhead(toks, p) && EofAhead(toks, q)
    ensures LevelOf(toks, p, level) == LevelLoop(toks, level, e, q)
    decreases e, level, 0
  {
    assert Flatten(e) == Flatten(e.left) + [e.operator] + Flatten(e.right);
    var pa := p + |Flatten(e.left)|;
    BinaryTokens(toks, p, Flatten(e.left), e.operator, Flatten(e.right), pa, q);
    OperatorFits(toks[pa], e.operator);
    EofAheadEarlier(toks, pa, q);
    LevelPrefixRoundTrip(toks, p, e.left, level, pa);
    LoopTurnRoundTrip(toks, level, e, pa, q);
  }

  /** One turn of a level's loop reads an operator and the operand tree after it. */
  lemma {:induction false} LoopTurnRoundTrip(toks: seq<Token>, level: nat, e: Expr, p: nat, q: nat)
    requires 1 <= level <= 4 && e.Binary? && p < |toks| && toks[p] == e.operator
    requires OpLevel(e.operator.kind) == level && q == p + 1 + |Flatten(e.right)|
    requires WellShaped(e.right) && Tier(e.right) < level && Spans(toks, p + 1, Flatten(e.right))
    requires Follows(toks, q, level - 1)
    ensures EofAhead(toks, p)
    ensures LevelLoop(toks, level, e.left, p) == LevelLoop(toks, level, e, q)
    decreases e.right, level, 3
  {
    var b := e.right;
    OperandRoundTrip(toks, p + 1, b, level);
    LevelLoopFold(toks, level, e.left, p, b, q);
    assert Expr.Binary(e.left, toks[p], b) == e;
  }

  /**
   * `parse` inverts `Flatten`: a list that starts with the tokens of a
   * well-shaped tree (its parentheses matched by kind, wherever the lexer
   * placed them), followed by anything that starts with no binary operator
   * and holds an EOF, parses to that tree. The tokens after it are not
   * looked at.
   */
  lemma ParseRoundTrip(e: Expr, toks: seq<Token>, file: string)
    requires WellShaped(e) && Spans(toks, 0, Flatten(e))
    requires |Flatten(e)| < |toks| && OpLevel(toks[|Flatten(e)|].kind) == 5 && EofAhead(toks, |Flatten(e)|)
    ensures EofAhead(toks, 0) && Parsed(toks, file) == Ok(e)
  {
    LevelRoundTrip(toks, 0, e, 4);
  }

  // ---------------------------------------------------------------------
  // A successful rule read exactly the tokens of its tree
  // ---------------------------------------------------------------------

  /**
   * A success from `p` stopped right after the tokens of its tree, and the
   * list from `p` is written as that tree (parentheses matched by kind).
   */
  ghost predicate ReadsTree(toks: seq<Token>, p: nat, r: Outcome) {
    r.result.Ok? ==> r.pos == p + |Flatten(r.result.value)| && Spans(toks, p, Flatten(r.result.value))
  }

  /**
   * `expression` read exactly the tokens of the tree it returns, and
   * stopped at a token that is no binary operator.
   */
  lemma {:induction false} ExpressionReadsTree(toks: seq<Token>, p: nat)
    requires EofAhead(toks, p)
    ensures ReadsTree(toks, p, ExpressionOf(toks, p))
    ensures var r := ExpressionOf(toks, p); r.result.Ok? ==> OpLevel(toks[r.pos].kind) == 5
    decreases |toks| - p, 15
  {
    LevelReadsTree(toks, p, 4);
  }

  lemma {:induction false} LevelReadsTree(toks: seq<Token>, p: nat, level: nat)
    requires 1 <= level <= 4 && EofAhead(toks, p)
    ensures ReadsTree(toks, p, LevelOf(toks, p, level))
    ensures var r := LevelOf(toks, p, level); r.result.Ok? ==> OpLevel(toks[r.pos].kind) > level
    decreases |toks| - p, 3 * level + 1
  {
    var left := OperandOf(toks, p, level);
    OperandReadsTree(toks, p, level);
    if left.result.Ok? {
      LoopReadsTree(toks, level, p, left.result.value, left.pos);
    }
  }

  lemma {:induction false} OperandReadsTree(toks: seq<Token>, p: nat, level: nat)
    requires 1 <= level <= 4 && EofAhead(toks, p)
    ensures ReadsTree(toks, p, OperandOf(toks, p, level))
    ensures var r := OperandOf(toks, p, level); r.result.Ok? ==> OpLevel(toks[r.pos].kind) >= level
    decreases |toks| - p, 3 * level
  {
    if level == 1 {
      UnaryReadsTree(toks, p);
    } else {
      LevelReadsTree(toks, p, level - 1);
    }
  }

  /**
   * The loop, entered with `left` read from `p0` up to `p` and at a token
   * no tighter than the level, reads on from there and stops at a token
   * looser than the level.
   */
  lemma {:induction false} LoopReadsTree(toks: seq<Token>, level: nat, p0: nat, left: Expr, p: nat)
    requires 1 <= level <= 4 && EofAhead(toks, p)
    requires p < |toks| && Spans(toks, p0, Flatten(left)) && p == p0 + |Flatten(left)|
    requires OpLevel(toks[p].kind) >= level
    ensures ReadsTree(toks, p0, LevelLoop(toks, level, left, p))
    ensures var r := LevelLoop(toks, level, left, p); r.result.Ok? ==> OpLevel(toks[r.pos].kind) > level
    decreases |toks| - p, 0
  {
    EofAheadBound(toks, p);
    var op := toks[p];
    if OpLevel(op.kind) == level {
      EofAheadStep(toks, p);
      var right := OperandOf(toks, p + 1, level);
      OperandReadsTree(toks, p + 1, level);
      if right.result.Ok? {
        var b := right.result.value;
        var e := Expr.Binary(left, op, b);
        assert Flatten(e) == Flatten(left) + [op] + Flatten(b);
        SpansExactly(toks, p, [op]);
        SpansJoin(toks, p0, Flatten(left), [op], p);
        SpansJoin(toks, p0, Flatten(left) + [op], Flatten(b), p + 1);
        LoopReadsTree(toks, level, p0, e, right.pos);
      }
    }
  }

  lemma {:induction false} UnaryReadsTree(toks: seq<Token>, p: nat)
    requires EofAhead(toks, p)
    ensures ReadsTree(toks, p, UnaryOf(toks, p))
    decreases |toks| - p, 1
  {
    EofAheadBound(toks, p);
    var op := toks[p];
    if IsUnaryOp(op.kind) {
      EofAheadStep(toks, p);
      var right := UnaryOf(toks, p + 1);
      UnaryReadsTree(toks, p + 1);
      if right.result.Ok? {
        SpansExactly(toks, p, [op]);
        SpansJoin(toks, p, [op], Flatten(right.result.value), p + 1);
      }
    } else {
      PrimaryReadsTree(toks, p);
    }
  }

  lemma {:induction false} PrimaryReadsTree(toks: seq<Token>, p: nat)
    requires EofAhead(toks, p)
    ensures ReadsTree(toks, p, PrimaryOf(toks, p))
    decreases |toks| - p, 0
  {
    EofAheadBound(toks, p);
    var t := toks[p];
    if IsLiteralKind(t.kind) {
      SpansExactly(toks, p, [t]);
    } else if t.kind.LeftParen? {
      EofAheadStep(toks, p);
      GroupReadsTree(toks, p + 1);
    }
  }

  /** After a `(` at `pos - 1`, the grouping read ends just past its `)`. */
  lemma {:induction false} GroupReadsTree(toks: seq<Token>, pos: nat)
    requires 1 <= pos <= |toks| && toks[pos - 1].kind.LeftParen? && EofAhead(toks, pos)
    ensures ReadsTree(toks, pos - 1, GroupOf(toks, pos))
    decreases |toks| - pos, 16
  {
    var inner := ExpressionOf(toks, pos);
    ExpressionReadsTree(toks, pos);
    if inner.result.Ok? && toks[inner.pos].kind.RightParen? {
      var f := Flatten(inner.result.value);
      assert Flatten(Expr.Grouping(inner.result.value)) == [OpenParen] + f + [CloseParen];
      assert Fits(toks[pos - 1 + 0], [OpenParen][0]);
      assert Fits(toks[inner.pos + 0], [CloseParen][0]);
      SpansJoin(toks, pos - 1, [OpenParen], f, pos);
      SpansJoin(toks, pos - 1, [OpenParen] + f, [CloseParen], inner.pos);
    }
  }

  /**
   * The converse of `ParseRoundTrip`: when `parse` succeeds, the list
   * starts with the tokens of the tree it returns (parentheses matched by
   * kind), and the token after them is no binary operator.
   */
  lemma ParsedReadsTree(toks: seq<Token>, file: string)
    requires EofAhead(toks, 0) && Parsed(toks, file).Ok?
    ensures var e := Parsed(toks, file).value;
      WellShaped(e) && Spans(toks, 0, Flatten(e))
      && |Flatten(e)| < |toks| && OpLevel(toks[|Flatten(e)|].kind) == 5 && EofAhead(toks, |Flatten(e)|)
  {
    ExpressionReadsTree(toks, 0);
  }

  // ---------------------------------------------------------------------
  // Examples, on tokens of one line
  // ---------------------------------------------------------------------

  const EofToken: Token := Token("", EOF, 1, 20)

  /** A failure in `unary` or below is what `expression` returns. */
  lemma LeadingError(toks: seq<Token>, p: nat)
    requires EofAhead(toks, p) && UnaryOf(toks, p).result.Err?
    ensures ExpressionOf(toks, p) == UnaryOf(toks, p)
  {
    var u := UnaryOf(toks, p);
    ErrorRises(toks, p, 1);
    assert OperandOf(toks, p, 2) == u;
    ErrorRises(toks, p, 2);
    assert OperandOf(toks, p, 3) == u;
    ErrorRises(toks, p, 3);
    assert OperandOf(toks, p, 4) == u;
    ErrorRises(toks, p, 4);
  }

  /** A level whose first operand fails fails with it. */
  lemma ErrorRises(toks: seq<Token>, p: nat, level: nat)
    requires 1 <= level <= 4 && EofAhead(toks, p) && OperandOf(toks, p, level).result.Err?
    ensures LevelOf(toks, p, level) == OperandOf(toks, p, level)
  {
  }

  /** A tree's tokens with `rest` appended: the tree is written first, then `rest` starts. */
  lemma Appended(s: seq<Token>, rest: seq<Token>)
    requires |rest| > 0 && EofAhead(rest, 0)
    ensures Spans(s + rest, 0, s) && (s + rest)[|s|] == rest[0] && EofAhead(s + rest, |s|)
  {
    assert (s + rest)[0..|s|] == s;
    SpansExactly(s + rest, 0, s);
    var j :| 0 <= j < |rest| && rest[j].kind.EOF?;
    assert (s + rest)[|s| + j] == rest[j];
  }

  /** The list `[t, EOF]` has an EOF ahead. */
  lemma EofAheadPair(t: Token)
    ensures EofAhead([t, EofToken], 0) && EofAhead([EofToken], 0)
  {
    assert [t, EofToken][1].kind.EOF?;
    assert [EofToken][0].kind.EOF?;
  }

  /** `1 - 2 - 3` folds to the left. */
  lemma LeftAssociativeExample(file: string)
    ensures var one, m1, two, m2, three :=
        Token("1", Int, 1, 1), Token("-", Minus, 1, 3), Token("2", Int, 1, 5),
        Token("-", Minus, 1, 7), Token("3", Int, 1, 9);
      var toks := [one, m1, two, m2, three, EofToken];
      EofAhead(toks, 0) &&
      Parsed(toks, file) == Ok(Expr.Binary(Expr.Binary(Literal(one), m1, Literal(two)), m2, Literal(three)))
  {
    var one, m1, two, m2, three :=
      Token("1", Int, 1, 1), Token("-", Minus, 1, 3), Token("2", Int, 1, 5),
      Token("-", Minus, 1, 7), Token("3", Int, 1, 9);
    var e := Expr.Binary(Expr.Binary(Literal(one), m1, Literal(two)), m2, Literal(three));
    assert Flatten(e) + [EofToken] == [one, m1, two, m2, three, EofToken];
    EofAheadPair(one);
    Appended(Flatten(e), [EofToken]);
    ParseRoundTrip(e, Flatten(e) + [EofToken], file);
  }

  /** `1 + 2 * 3`: the factor binds tighter than the term. */
  lemma PrecedenceExample(file: string)
    ensures var one, plus, two, star, three :=
        Token("1", Int, 1, 1), Token("+", Plus, 1, 3), Token("2", Int, 1, 5),
        Token("*", Star, 1, 7), Token("3", Int, 1, 9);
      var toks := [one, plus, two, star, three, EofToken];
      EofAhead(toks, 0) &&
      Parsed(toks, file) == Ok(Expr.Binary(Literal(one), plus, Expr.Binary(Literal(two), star, Literal(three))))
  {
    var one, plus, two, star, three :=
      Token("1", Int, 1, 1), Token("+", Plus, 1, 3), Token("2", Int, 1, 5),
      Token("*", Star, 1, 7), Token("3", Int, 1, 9);
    var e := Expr.Binary(Literal(one), plus, Expr.Binary(Literal(two), star, Literal(three)));
    assert Flatten(e) + [EofToken] == [one, plus, two, star, three, EofToken];
    EofAheadPair(one);
    Appended(Flatten(e), [EofToken]);
    ParseRoundTrip(e, Flatten(e) + [EofToken], file);
  }

  /**
   * `(1 + 2) * 3`, with the parentheses where the lexer places them: the
   * grouping is read back although the tree keeps no parenthesis tokens.
   */
  lemma GroupingExample(file: string)
    ensures var open, one, plus, two, close, star, three :=
        Token("(", LeftParen, 1, 1), Token("1", Int, 1, 2), Token("+", Plus, 1, 4), Token("2", Int, 1, 6),
        Token(")", RightParen, 1, 7), Token("*", Star, 1, 9), Token("3", Int, 1, 11);
      var toks := [open, one, plus, two, close, star, three, EofToken];
      EofAhead(toks, 0) &&
      Parsed(toks, file) == Ok(Expr.Binary(Grouping(Expr.Binary(Literal(one), plus, Literal(two))), star, Literal(three)))
  {
    var open, one, plus, two, close, star, three :=
      Token("(", LeftParen, 1, 1), Token("1", Int, 1, 2), Token("+", Plus, 1, 4), Token("2", Int, 1, 6),
      Token(")", RightParen, 1, 7), Token("*", Star, 1, 9), Token("3", Int, 1, 11);
    var toks := [open, one, plus, two, close, star, three, EofToken];
    var e := Expr.Binary(Grouping(Expr.Binary(Literal(one), plus, Literal(two))), star, Literal(three));
    var f := Flatten(e);
    assert f == [OpenParen, one, plus, two, CloseParen, star, three];
    forall i | 0 <= i < |f| ensures Fits(toks[0 + i], f[i]) {
    }
    assert toks[7].kind.EOF?;
    ParseRoundTrip(e, toks, file);
  }

  /** `- - 1`: prefix operators nest to the right. */
  lemma NestedUnaryExample(file: string)
    ensures var m1, m2, one := Token("-", Minus, 1, 1), Token("-", Minus, 1, 3), Token("1", Int, 1, 5);
      var toks := [m1, m2, one, EofToken];
      EofAhead(toks, 0) && Parsed(toks, file) == Ok(Expr.Unary(m1, Expr.Unary(m2, Literal(one))))
  {
    var m1, m2, one := Token("-", Minus, 1, 1), Token("-", Minus, 1, 3), Token("1", Int, 1, 5);
    var e := Expr.Unary(m1, Expr.Unary(m2, Literal(one)));
    assert Flatten(e) + [EofToken] == [m1, m2, one, EofToken];
    EofAheadPair(one);
    Appended(Flatten(e), [EofToken]);
    ParseRoundTrip(e, Flatten(e) + [EofToken], file);
  }

  /** `1 2`: the tokens after the leading expression are not looked at. */
  lemma TrailingTokensExample(file: string)
    ensures var one, two := Token("1", Int, 1, 1), Token("2", Int, 1, 3);
      var toks := [one, two, EofToken];
      EofAhead(toks, 0) && Parsed(toks, file) == Ok(Literal(one))
  {
    var one, two := Token("1", Int, 1, 1), Token("2", Int, 1, 3);
    assert Flatten(Literal(one)) + [two, EofToken] == [one, two, EofToken];
    EofAheadPair(two);
    Appended(Flatten(Literal(one)), [two, EofToken]);
    ParseRoundTrip(Literal(one), Flatten(Literal(one)) + [two, EofToken], file);
  }

  /** A lone `)` starts no expression. */
  lemma CloseParenExample(file: string)
    ensures var close := Token(")", RightParen, 1, 1);
      EofAhead([close, EofToken], 0) &&
      ExpressionOf([close, EofToken], 0) == Outcome(Err(UnexpectedToken(close)), 0) &&
      Parsed([close, EofToken], file) == Err("syntax error encountered in " + file)
  {
    var close := Token(")", RightParen, 1, 1);
    EofAheadPair(close);
    LeadingError([close, EofToken], 0);
  }

  /** An identifier is no literal: `x` fails in `primary`. */
  lemma IdentifierExample(file: string)
    ensures var x := Token("x", Identifier, 1, 1);
      EofAhead([x, EofToken], 0) &&
      ExpressionOf([x, EofToken], 0) == Outcome(Err(UnexpectedToken(x)), 0)
  {
    var x := Token("x", Identifier, 1, 1);
    EofAheadPair(x);
    LeadingError([x, EofToken], 0);
  }

  /** `(1`: `expect` finds EOF where the `)` should be. */
  lemma MissingParenExample(file: string)
    ensures var open, one := Token("(", LeftParen, 1, 1), Token("1", Int, 1, 2);
      var toks := [open, one, EofToken];
      EofAhead(toks, 0) &&
      ExpressionOf(toks, 0) == Outcome(Err(ExpectFailed(EofToken, MissingParen)), 2)
  {
    var open, one := Token("(", LeftParen, 1, 1), Token("1", Int, 1, 2);
    var toks := [open, one, EofToken];
    assert toks[2].kind.EOF?;
    assert toks[1..2] == Flatten(Literal(one));
    SpansExactly(toks, 1, Flatten(Literal(one)));
    LevelRoundTrip(toks, 1, Literal(one), 4);
    assert GroupOf(toks, 1) == Outcome(Err(ExpectFailed(EofToken, MissingParen)), 2);
    LeadingError(toks, 0);
  }

  /**
   * `(1 +`: the term's loop wants an operand and `primary` fails on EOF, so
   * the error is an unexpected token, not the missing `)`.
   */
  lemma UnfinishedTermExample(file: string)
    ensures var open, one, plus := Token("(", LeftParen, 1, 1), Token("1", Int, 1, 2), Token("+", Plus, 1, 4);
      var toks := [open, one, plus, EofToken];
      EofAhead(toks, 0) &&
      ExpressionOf(toks, 0) == Outcome(Err(UnexpectedToken(EofToken)), 3)
  {
    var open, one, plus := Token("(", LeftParen, 1, 1), Token("1", Int, 1, 2), Token("+", Plus, 1, 4);
    var toks := [open, one, plus, EofToken];
    var err := Outcome(Err(UnexpectedToken(EofToken)), 3);
    assert toks[3].kind.EOF?;
    assert toks[1..2] == Flatten(Literal(one));
    SpansExactly(toks, 1, Flatten(Literal(one)));
    LevelPrefixRoundTrip(toks, 1, Literal(one), 2, 2);
    assert UnaryOf(toks, 3) == err;
    assert LevelOf(toks, 3, 1) == err;
    assert OperandOf(toks, 3, 2) == err;
    LevelLoopTurn(toks, 2, Literal(one), 2);
    assert LevelOf(toks, 1, 2) == err;
    assert LevelOf(toks, 1, 3) == err;
    assert LevelOf(toks, 1, 4) == err;
    assert GroupOf(toks, 1) == err;
    LeadingError(toks, 0);
  }

  /**
   * `scan` leaves its EOF out, so the parser cannot be given its tokens as
   * they are: they hold no EOF. With an EOF token appended they can be.
   */
  lemma ScannedTokensNeedEof(source: string, file: string, eof: Token)
    requires Lexing.Scanned(source, file).Ok? && eof.kind.EOF?
    ensures var toks := Lexing.Scanned(source, file).value;
      !EofAhead(toks, 0) && EofAhead(toks + [eof], 0)
  {
    Lexing.ScannedPolicy(source, file);
    var toks := Lexing.Scanned(source, file).value;
    assert (toks + [eof])[|toks|] == eof;
    forall j | 0 <= j < |toks|
      ensures !toks[j].kind.EOF?
    {
      assert Lexing.WellFormedToken(toks[j]);
    }
  }

  // ---------------------------------------------------------------------
  // The parser
  // ---------------------------------------------------------------------

  /** `Parser`: the token list and the index of the token being looked at. */
  class Parser {
    const tokens: seq<Token>
    var cur: nat

    /** An EOF lies at or after the cursor. */
    ghost predicate Valid()
      reads this
    {
      EofAhead(tokens, cur)
    }

    constructor (tokens: seq<Token>)
      requires EofAhead(tokens, 0)
      ensures this.tokens == tokens && cur == 0 && Valid()
    {
      this.tokens := tokens;
      cur := 0;
    }

    /** `finished`: the current token is EOF. */
    method Finished() returns (done: bool)
      requires Valid()
      ensures done <==> tokens[cur].kind.EOF?
    {
      EofAheadBound(tokens, cur);
      var t := Peek();
      done := t.kind.EOF?;
    }

    /** `peek`. */
    method Peek() returns (t: Token)
      requires cur < |tokens|
      ensures t == tokens[cur]
    {
      t := tokens[cur];
    }

    /** `previous`. */
    method Previous() returns (t: Token)
      requires 0 < cur <= |tokens|
      ensures t == tokens[cur - 1]
    {
      t := tokens[cur - 1];
    }

    /** `advance`: step over the current token unless it is EOF, and return the one before the cursor. */
    method Advance() returns (t: Token)
      requires Valid() && (0 < cur || !tokens[cur].kind.EOF?)
      modifies this
      ensures Valid()
      ensures cur == if tokens[old(cur)].kind.EOF? then old(cur) else old(cur) + 1
      ensures t == tokens[cur - 1]
    {
      var done := Finished();
      if !done {
        EofAheadStep(tokens, cur);
        cur := cur + 1;
      }
      t := Previous();
    }

    /** `check`: never at EOF, otherwise whether the current token has kind `kind`. */
    method Check(kind: TokenType) returns (b: bool)
      requires Valid()
      ensures b <==> MatchesAny(tokens[cur], [kind])
    {
      var done := Finished();
      if done {
        return false;
      }
      var t := Peek();
      b := t.kind == kind;
    }

    /** `expect`: consume a token of kind `kind`, or fail on the current token with `message`. */
    method Expect(kind: TokenType, message: string) returns (r: Result<Token, ParseError>)
      requires Valid()
      modifies this
      ensures Valid()
      ensures MatchesAny(tokens[old(cur)], [kind]) ==> r == Ok(tokens[old(cur)]) && cur == old(cur) + 1
      ensures !MatchesAny(tokens[old(cur)], [kind]) ==>
        r == Err(ExpectFailed(tokens[old(cur)], message)) && cur == old(cur)
    {
      var ok := Check(kind);
      if ok {
        var t := Advance();
        return Ok(t);
      }
      var next := Peek();
      return Err(ExpectFailed(next, message));
    }

    /** `match_types`: consume the current token if its kind is any of `kinds`. */
    method MatchTypes(kinds: seq<TokenType>) returns (matched: bool)
      requires Valid()
      modifies this
      ensures Valid()
      ensures matched <==> MatchesAny(tokens[old(cur)], kinds)
      ensures cur == if matched then old(cur) + 1 else old(cur)
    {
      for i := 0 to |kinds|
        invariant cur == old(cur)
        invariant forall j :: 0 <= j < i ==> !MatchesAny(tokens[cur], [kinds[j]])
      {
        var hit := Check(kinds[i]);
        if hit {
          var _ := Advance();
          return true;
        }
      }
      return false;
    }

    /** `expression`. */
    method Expression() returns (r: Result<Expr, ParseError>)
      requires Valid()
      modifies this
      ensures Valid() && Outcome(r, cur) == ExpressionOf(tokens, old(cur))
      decreases |tokens| - cur, 15
    {
      r := Equality();
    }

    /** `equality`. */
    method Equality() returns (r: Result<Expr, ParseError>)
      requires Valid()
      modifies this
      ensures Valid() && Outcome(r, cur) == LevelOf(tokens, old(cur), 4)
      decreases |tokens| - cur, 14
    {
      r := BinaryLevel(4);
    }

    /** `comparison`. */
    method Comparison() returns (r: Result<Expr, ParseError>)
      requires Valid()
      modifies this
      ensures Valid() && Outcome(r, cur) == LevelOf(tokens, old(cur), 3)
      decreases |tokens| - cur, 11
    {
      r := BinaryLevel(3);
    }

    /** `term`. */
    method Term() returns (r: Result<Expr, ParseError>)
      requires Valid()
      modifies this
      ensures Valid() && Outcome(r, cur) == LevelOf(tokens, old(cur), 2)
      decreases |tokens| - cur, 8
    {
      r := BinaryLevel(2);
    }

    /** `factor`. */
    method Factor() returns (r: Result<Expr, ParseError>)
      requires Valid()
      modifies this
      ensures Valid() && Outcome(r, cur) == LevelOf(tokens, old(cur), 1)
      decreases |tokens| - cur, 5
    {
      r := BinaryLevel(1);
    }

    /** The rule each binary level calls for its operands. */
    method Operand(level: nat) returns (r: Result<Expr, ParseError>)
      requires 1 <= level <= 4 && Valid()
      modifies this
      ensures Valid() && Outcome(r, cur) == OperandOf(tokens, old(cur), level)
      decreases |tokens| - cur, 3 * level
    {
      if level == 4 {
        r := Comparison();
      } else if level == 3 {
        r := Term();
      } else if level == 2 {
        r := Factor();
      } else {
        r := Unary();
      }
    }

    /**
     * The body the four binary levels share: an operand, then, while the
     * current token is one of the level's operators, fold the next operand
     * in as the right operand of a new binary node.
     */
    method BinaryLevel(level: nat) returns (r: Result<Expr, ParseError>)
      requires 1 <= level <= 4 && Valid()
      modifies this
      ensures Valid() && Outcome(r, cur) == LevelOf(tokens, old(cur), level)
      decreases |tokens| - cur, 3 * level + 1
    {
      r := Operand(level);
      if r.Err? {
        return;
      }
      var expr := r.value;
      ghost var p := cur;
      EofAheadBound(tokens, p);
      MatchesLevel(tokens[p], level);
      var matched := MatchTypes(LevelOps(level));
      while matched
        invariant Valid() && old(cur) < p && EofAhead(tokens, p) && p < |tokens|
        invariant LevelLoop(tokens, level, expr, p) == LevelOf(tokens, old(cur), level)
        invariant matched <==> OpLevel(tokens[p].kind) == level
        invariant cur == if matched then p + 1 else p
        decreases |tokens| - p
      {
        LevelLoopTurn(tokens, level, expr, p);
        var operator := Previous();
        assert operator == tokens[p];
        var right := Operand(level);
        if right.Err? {
          return right;
        }
        LevelLoopFold(tokens, level, expr, p, right.value, cur);
        expr := Expr.Binary(expr, operator, right.value);
        p := cur;
        EofAheadBound(tokens, p);
        MatchesLevel(tokens[p], level);
        matched := MatchTypes(LevelOps(level));
      }
      LevelLoopEnd(tokens, level, expr, p);
      r := Ok(expr);
    }

    /** `unary`. */
    method Unary() returns (r: Result<Expr, ParseError>)
      requires Valid()
      modifies this
      ensures Valid() && Outcome(r, cur) == UnaryOf(tokens, old(cur))
      decreases |tokens| - cur, 1
    {
      EofAheadBound(tokens, cur);
      UnaryOpsExact(tokens[cur].kind);
      if IsUnaryOp(tokens[cur].kind) {
        EofAheadStep(tokens, cur);
      }
      var matched := MatchTypes(UnaryOps);
      if matched {
        var operator := Previous();
        var right := Unary();
        if right.Err? {
          return right;
        }
        return Ok(Expr.Unary(operator, right.value));
      }
      r := Primary();
    }

    /** `primary`. */
    method Primary() returns (r: Result<Expr, ParseError>)
      requires Valid()
      modifies this
      ensures Valid() && Outcome(r, cur) == PrimaryOf(tokens, old(cur))
      decreases |tokens| - cur, 0
    {
      EofAheadBound(tokens, cur);
      ghost var start := cur;
      LiteralKindsExact(tokens[cur].kind);
      var literal := MatchTypes(LiteralKinds);
      if literal {
        var t := Previous();
        return Ok(Expr.Literal(t));
      }
      var open := MatchTypes([LeftParen]);
      if open {
        assert PrimaryOf(tokens, start) == GroupOf(tokens, start + 1);
        var inner := Expression();
        if inner.Err? {
          return inner;
        }
        EofAheadBound(tokens, cur);
        var closed := Expect(RightParen, MissingParen);
        if closed.Err? {
          return Err(closed.error);
        }
        return Ok(Expr.Grouping(inner.value));
      }
      var next := Peek();
      return Err(UnexpectedToken(next));
    }
  }

  /** `parse`: run `expression` from the first token. */
  method Parse(tokens: seq<Token>, filePath: string) returns (r: Result<Expr, string>)
    requires EofAhead(tokens, 0)
    ensures r == Parsed(tokens, filePath)
  {
    var parser := new Parser(tokens);
    var res := parser.Expression();
    match res
    case Ok(e) => r := Ok(e);
    case Err(_) => r := Err("syntax error encountered in " + filePath);
  }
}

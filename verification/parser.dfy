/** The single-pass parser: precedence climbing over a token stream consumed
    from its end, with eager type checks at every fold and name binding through
    the root scope (src/compiler/parser.rs, lines 247-905). */
module Parsing {
  import opened Wrappers
  import opened Tokens
  import opened Ast
  import opened Environments

  datatype AstProgram = AstProgram(statements: seq<Statement>, nodeCount: nat, env: Env)

  /** The parser state. `tokens` is the stream still to read; its LAST element
      is the next token. */
  datatype Parser = Parser(program: AstProgram, tokens: seq<Token>, nodeCount: nat)

  /** What one grammar rule does: it finishes with a result and the new state,
      or it panics by unwrapping an empty stream. */
  datatype Outcome = Done(result: ParseResult, parser: Parser) | Panic

  /** What the whole parse does: it returns the program (complete, or partial
      after the first failure), or it panics. */
  datatype Run = Finished(program: AstProgram) | Panicked

  function NewProgram(): AstProgram {
    AstProgram([], 0, NewEnv())
  }

  function NewParser(tokens: seq<Token>): Parser {
    Parser(NewProgram(), tokens, 0)
  }

  /** The next token, without consuming it. */
  function Next(p: Parser): Token
    requires |p.tokens| > 0
  {
    p.tokens[|p.tokens| - 1]
  }

  /** The state after consuming the next token. */
  function Advance(p: Parser): (q: Parser)
    requires |p.tokens| > 0
    ensures q.tokens < p.tokens && |q.tokens| == |p.tokens| - 1
    ensures q.program == p.program && q.nodeCount == p.nodeCount
  {
    p.(tokens := p.tokens[..|p.tokens| - 1])
  }

  /** The state after taking a fresh node id. */
  function Bump(p: Parser): Parser {
    p.(nodeCount := p.nodeCount + 1)
  }

  /** The state after appending a statement to the program. */
  function Push(p: Parser, e: Expression): Parser {
    p.(program := p.program.(statements := p.program.statements + [Statement(e)]))
  }

  /** Bindings already present stay, with their values; new ones may appear. */
  predicate EnvGrows(a: Env, b: Env) {
    && b.enclosing == a.enclosing
    && a.nodeCount <= b.nodeCount
    && (forall k :: k in a.vars ==> k in b.vars && b.vars[k] == a.vars[k])
  }

  /** `q` follows `p` by consuming tokens only, never rewriting or dropping
      statements or bindings, and never reusing a node id. */
  predicate Follows(p: Parser, q: Parser) {
    && q.tokens <= p.tokens
    && p.program.statements <= q.program.statements
    && q.program.nodeCount == p.program.nodeCount
    && EnvGrows(p.program.env, q.program.env)
    && p.nodeCount <= q.nodeCount
  }

  /** As `Follows`, and no statement was appended: expression rules never push. */
  predicate ExprFollows(p: Parser, q: Parser) {
    Follows(p, q) && q.program.statements == p.program.statements
  }

  predicate ProgramTyped(prog: AstProgram) {
    && EnvTyped(prog.env)
    && forall i :: 0 <= i < |prog.statements| ==> StmtTyped(prog.statements[i].expr)
  }

  // ---------------------------------------------------------------------
  // Expressions
  // ---------------------------------------------------------------------

  /** The operators folded at each binary level: 1 multiplication, 2 addition,
      3 comparison, 4 equality. */
  predicate IsLevelOperator(level: nat, t: Token) {
    if level == 1 then t == Multiply || t == Divide
    else if level == 2 then t == Add || t == Subtract
    else if level == 3 then t == GreaterThan || t == LessThan || t == LessThanEqual || t == GreaterThanEqual
    else t == NotEquality || t == Equality
  }

  function RanOutMessage(level: nat): string {
    if level == 4 then "Ran out of tokens" else "Ran out of tokens.."
  }

  function RhsFailedMessage(level: nat): string {
    if level == 1 then "Failed multiplication RHS"
    else if level == 2 then "Failed addition RHS"
    else if level == 3 then "Failed comparison RHS"
    else "Failed equality comparison"
  }

  /** Literal-class tokens, accepted as leaves. */
  predicate IsPrimaryLiteral(t: Token) {
    || t.StringLiteral? || t.IntegerLiteral? || t.FloatLiteral? || t.BooleanLiteral?
    || t == CollectionLiteral || t == RangeLiteral || t.Identifier? || t == Null
  }

  /** A leaf, or a braced sub-expression that must be closed by `}`. */
  function ParsePrimary(p: Parser): (r: Outcome)
    ensures r.Done? ==> ExprFollows(p, r.parser)
    ensures r.Done? && r.result.Success? ==> ExprTyped(r.result.value)
    ensures r.Done? && EnvTyped(p.program.env) ==> EnvTyped(r.parser.program.env)
    decreases |p.tokens|, 0
  {
    if |p.tokens| == 0 then Done(Failed("Ran out of tokens"), p)
    else
      var t := Next(p);
      var p1 := Advance(p);
      if IsPrimaryLiteral(t) then
        var p2 := Bump(p1);
        Done(Success(Expression(p2.nodeCount, Literal(t), FromToken(t))), p2)
      else if t == LeftBrace then
        match ParseExpression(p1)
        case Panic => Panic
        case Done(rhs, p2) =>
          if |p2.tokens| == 0 then Done(Failed("Ran out of tokens"), p2)
          else if Next(p2) == RightBrace then Done(rhs, Advance(p2))
          else Done(Failed("Expected ')'"), Advance(p2))
      else Done(Failed("Expected primary expression"), p1)
  }

  /** `!` or `-` applied to a unary operand; the node's type comes from the
      operator token. Any other token is consumed and discarded, and the
      primary rule reads the token after it. */
  function ParseUnary(p: Parser): (r: Outcome)
    ensures r.Done? ==> ExprFollows(p, r.parser)
    ensures r.Done? && r.result.Success? ==> ExprTyped(r.result.value)
    ensures r.Done? && EnvTyped(p.program.env) ==> EnvTyped(r.parser.program.env)
    decreases |p.tokens|, 1
  {
    if |p.tokens| == 0 then Panic
    else
      var t := Next(p);
      var p1 := Advance(p);
      if t == Bang || t == Subtract then
        match ParseUnary(p1)
        case Panic => Panic
        case Done(Success(operand), p2) =>
          var p3 := Bump(p2);
          Done(Success(Expression(p3.nodeCount, UnaryExpression(t, operand), FromToken(t))), p3)
        case Done(Failed(_), p2) => Done(Failed("Failed unary"), p2)
      else ParsePrimary(p1)
  }

  /** The next level down, which supplies a level's operands. */
  function Operand(level: nat, p: Parser): (r: Outcome)
    requires 1 <= level <= 4
    ensures r.Done? ==> ExprFollows(p, r.parser)
    ensures r.Done? && r.result.Success? ==> ExprTyped(r.result.value)
    ensures r.Done? && EnvTyped(p.program.env) ==> EnvTyped(r.parser.program.env)
    decreases |p.tokens|, 3 * level - 1
  {
    if level == 1 then ParseUnary(p) else ParseLevel(level - 1, p)
  }

  /** One binary precedence level: its left operand, then the fold loop. */
  function ParseLevel(level: nat, p: Parser): (r: Outcome)
    requires 1 <= level <= 4
    ensures r.Done? ==> ExprFollows(p, r.parser)
    ensures r.Done? && r.result.Success? ==> ExprTyped(r.result.value)
    ensures r.Done? && EnvTyped(p.program.env) ==> EnvTyped(r.parser.program.env)
    decreases |p.tokens|, 3 * level + 1
  {
    match Operand(level, p)
    case Panic => Panic
    case Done(Failed(m), q) => Done(Failed(m), q)
    case Done(Success(lhs), q) => FoldLoop(level, lhs, q)
  }

  /** The fold loop of one level. It always consumes the next token; if that is
      not one of the level's operators, the accumulated operand is returned
      (the token is lost). Otherwise the right operand must have the left
      operand's type, and the binary node takes that type. */
  function FoldLoop(level: nat, lhs: Expression, p: Parser): (r: Outcome)
    requires 1 <= level <= 4
    ensures r.Done? ==> ExprFollows(p, r.parser)
    ensures r.Done? && r.result.Success? && ExprTyped(lhs) ==> ExprTyped(r.result.value)
    ensures r.Done? && EnvTyped(p.program.env) ==> EnvTyped(r.parser.program.env)
    decreases |p.tokens|, 3 * level
  {
    if |p.tokens| == 0 then Done(Failed(RanOutMessage(level)), p)
    else
      var t := Next(p);
      var p1 := Advance(p);
      if !IsLevelOperator(level, t) then Done(Success(lhs), p1)
      else
        match Operand(level, p1)
        case Panic => Panic
        case Done(Failed(_), p2) => Done(Failed(RhsFailedMessage(level)), p2)
        case Done(Success(rhs), p2) =>
          if lhs.returnType != rhs.returnType then
            Done(Failed("Comparing different return types!"), p2)
          else
            var p3 := Bump(p2);
            FoldLoop(level, Expression(p3.nodeCount, BinaryExpression(t, lhs, rhs), lhs.returnType), p3)
  }

  /** Right-associative assignment. The `=` is only consumed after peeking it.
      The target must be a binding node of the right-hand side's type, and the
      binding is committed into the root scope through `Define`. */
  function ParseAssignment(p: Parser): (r: Outcome)
    ensures r.Done? ==> ExprFollows(p, r.parser)
    ensures r.Done? && r.result.Success? ==> ExprTyped(r.result.value)
    ensures r.Done? && EnvTyped(p.program.env) ==> EnvTyped(r.parser.program.env)
    decreases |p.tokens|, 20
  {
    match ParseLevel(4, p)
    case Panic => Panic
    case Done(Failed(m), q) => Done(Failed(m), q)
    case Done(Success(lhs), q) =>
      if |q.tokens| == 0 then Done(Failed("Out of tokens"), q)
      else if Next(q) != Assign then Done(Success(lhs), q)
      else
        match ParseAssignment(Advance(q))
        case Panic => Panic
        case Done(Failed(_), p2) => Done(Failed("Failed RHS of assignment"), p2)
        case Done(Success(rh), p2) => Commit(lhs, rh, p2)
  }

  /** The last step of an assignment, once the right-hand side `rh` has been
      parsed: the types must agree, the target must be a binding node, and the
      binding goes into the root scope through `Define`, so a name that scope
      already binds fails. */
  function Commit(lhs: Expression, rh: Expression, p: Parser): (r: Outcome)
    ensures r.Done? && r.parser.tokens == p.tokens
    ensures r.result.Success? <==>
      && rh.returnType == lhs.returnType
      && lhs.kind.LiteralExpression?
      && lhs.kind.name !in p.program.env.vars
    ensures rh.returnType != lhs.returnType ==> r == Done(Failed("Mismatched types"), p)
    ensures rh.returnType == lhs.returnType && !lhs.kind.LiteralExpression? ==>
      r == Done(Failed("Invalid assignment target"), p)
    ensures r.result.Success? ==>
      var bound := Expression(p.nodeCount + 1, AssignmentExpression(lhs.kind.name, rh), lhs.returnType);
      && r.result.value.kind == LiteralExpression(lhs.kind.name, bound)
      && GetValue(r.parser.program.env, lhs.kind.name) == Success(bound)
    ensures ExprFollows(p, r.parser)
    ensures ExprTyped(rh) && r.result.Success? ==> ExprTyped(r.result.value)
    ensures EnvTyped(p.program.env) && ExprTyped(rh) ==> EnvTyped(r.parser.program.env)
  {
    if rh.returnType != lhs.returnType then Done(Failed("Mismatched types"), p)
    else
      match lhs.kind
      case LiteralExpression(name, _) =>
        var p1 := Bump(p);
        var u := Define(p1.program.env, name,
          Expression(p1.nodeCount, AssignmentExpression(name, rh), lhs.returnType));
        Done(u.result, p1.(program := p1.program.(env := u.env)))
      case _ => Done(Failed("Invalid assignment target"), p)
  }

  /** An expression; end of input or an empty stream fails without consuming. */
  function ParseExpression(p: Parser): (r: Outcome)
    ensures r.Done? ==> ExprFollows(p, r.parser)
    ensures r.Done? && r.result.Success? ==> ExprTyped(r.result.value)
    ensures r.Done? && EnvTyped(p.program.env) ==> EnvTyped(r.parser.program.env)
    ensures |p.tokens| == 0 || Next(p) == EOF ==> r == Done(Failed("Unexpected EOF"), p)
    decreases |p.tokens|, 21
  {
    if |p.tokens| == 0 || Next(p) == EOF then Done(Failed("Unexpected EOF"), p)
    else ParseAssignment(p)
  }

  // ---------------------------------------------------------------------
  // Statements
  // ---------------------------------------------------------------------

  /** The types an argument may be declared with. */
  predicate IsArgumentType(rt: ReturnType) {
    rt in {ReturnInteger, ReturnString, ReturnBool, ReturnFloat, ReturnStruct, ReturnCollection}
  }

  /** A header node built from `name`: the argument list only grows, and every
      argument has a value type. */
  predicate IsHeaderFor(e: Expression, name: string, args: seq<Argument>) {
    && e.returnType == ReturnFunctionHeader
    && e.kind.FunctionHeaderExpression?
    && e.kind.header.name == name
    && args <= e.kind.header.args
    && forall i :: |args| <= i < |e.kind.header.args| ==> IsArgumentType(e.kind.header.args[i].argType)
  }

  /** The argument list of a function header, after its `(`. `void` is only
      legal as the sole entry; a type must be followed by `:` and a name;
      commas are skipped; `)` closes a non-empty list, and the header then
      records `ReturnArguments` as its return type. */
  function ArgLoop(name: string, retType: ReturnType, args: seq<Argument>, p: Parser): (r: Outcome)
    ensures r.Done? ==> ExprFollows(p, r.parser) && r.parser.program == p.program
    ensures r.Done? && r.result.Success? ==>
      && IsHeaderFor(r.result.value, name, args)
      && (|r.result.value.kind.header.args| > 0 ==> r.result.value.kind.header.headerType == ReturnArguments)
      && (|r.result.value.kind.header.args| == 0 ==> r.result.value.kind.header.headerType == retType)
    decreases |p.tokens|
  {
    if |p.tokens| == 0 then Panic
    else
      var rt := FromToken(Next(p));
      var p1 := Advance(p);
      if rt == ReturnVoid then
        if |args| > 0 then Done(Failed("Unexpected void return type"), p1)
        else if |p1.tokens| == 0 then Panic
        else if Next(p1) == RightParenthesis then
          var p2 := Bump(Advance(p1));
          Done(Success(Expression(p2.nodeCount, FunctionHeaderExpression(FunctionHeader(name, retType, args)), ReturnFunctionHeader)), p2)
        else Done(Failed("Expected ')' after arguments"), Advance(p1))
      else if IsArgumentType(rt) then
        if |p1.tokens| == 0 then Panic
        else if Next(p1) != Colon then Done(Failed("Expected ')' after arguments"), Advance(p1))
        else
          var p2 := Advance(p1);
          if |p2.tokens| == 0 then Panic
          else if Next(p2).Identifier? then
            ArgLoop(name, retType, args + [Argument(rt, Next(p2).name)], Advance(p2))
          else Done(Failed("Expected argument name after ':'"), Advance(p2))
      else if rt == ReturnContinue then ArgLoop(name, retType, args, p1)
      else if rt == ReturnEOF then Done(Failed("Unexpected end of file"), p1)
      else if rt == ReturnArguments then
        if |args| > 0 then
          var p2 := Bump(p1);
          Done(Success(Expression(p2.nodeCount, FunctionHeaderExpression(FunctionHeader(name, rt, args)), ReturnFunctionHeader)), p2)
        else Done(Failed("Expected argument list"), p1)
      else Done(Failed("Unexpected argument"), p1)
  }

  /** `name : type ( arguments )`, after the `fn` keyword. Any token except an
      invalid one is accepted as the declared type. */
  function ParseFunctionHeader(p: Parser): (r: Outcome)
    ensures r.Done? ==> ExprFollows(p, r.parser) && r.parser.program == p.program
    ensures r.Done? && r.result.Success? ==>
      && |p.tokens| > 0 && Next(p).Identifier?
      && IsHeaderFor(r.result.value, Next(p).name, [])
      && r.result.value.kind.header.headerType != ReturnInvalid
    decreases |p.tokens|
  {
    if |p.tokens| == 0 then Done(Failed("Expected function identifier"), p)
    else if Next(p).Identifier? then
        var name := Next(p).name;
        var p1 := Advance(p);
        if |p1.tokens| == 0 then Done(Failed("Expected ':' after identifier"), p1)
        else if Next(p1) != Colon then Done(Failed("Expected ':' after identifier"), Advance(p1))
        else
          var p2 := Advance(p1);
          if |p2.tokens| == 0 then Panic
          else
            var retType := FromToken(Next(p2));
            var p3 := Advance(p2);
            if retType == ReturnInvalid then
              Done(Failed("Expected return type after function definition"), p3)
            else if |p3.tokens| == 0 then Panic
            else if Next(p3) != LeftParenthesis then Done(Failed("Expected '(' after return type"), Advance(p3))
            else ArgLoop(name, retType, [], Advance(p3))
    else Done(Failed("Expected function identifier"), Advance(p))
  }

  /** `name = expression ;` after the `var` keyword. The name must already be
      bound somewhere in the scope chain, and the expression must have the type
      of that existing binding. */
  function ParseVarDecl(p: Parser): (r: Outcome)
    ensures r.Done? ==> ExprFollows(p, r.parser)
    ensures r.Done? && EnvTyped(p.program.env) ==> EnvTyped(r.parser.program.env)
    ensures r.Done? && r.result.Success? ==>
      && |p.tokens| > 0 && Next(p).Identifier?
      && GetValue(p.program.env, Next(p).name).Success?
      && r.result.value.kind.VarExpression?
      && r.result.value.returnType == GetValue(p.program.env, Next(p).name).value.returnType
      && StmtTyped(r.result.value)
    decreases |p.tokens|
  {
    if |p.tokens| == 0 then Done(Failed("Ran out of tokens"), p)
    else if Next(p).Identifier? then
        var name := Next(p).name;
        var p1 := Advance(p);
        match GetValue(p1.program.env, name)
        case Failed(_) => Done(Failed("Variable not found"), p1)
        case Success(val) =>
          if |p1.tokens| == 0 then Done(Failed("Ran out of tokens"), p1)
          else if Next(p1) != Assign then Done(Failed("Expected '=' after return type"), Advance(p1))
          else
            match ParseExpression(Advance(p1))
            case Panic => Panic
            case Done(Failed(m), p2) => Done(Failed(m), p2)
            case Done(Success(e), p2) =>
              if e.returnType != val.returnType then Done(Failed("Invalid return type"), p2)
              else if |p2.tokens| == 0 then Panic
              else if Next(p2) == Semicolon then
                var p3 := Bump(Advance(p2));
                Done(Success(Expression(p3.nodeCount, VarExpression(e), val.returnType)), p3)
              else Done(Failed("Expected ';'"), Advance(p2))
    else Done(Failed("Expected identifier"), Advance(p))
  }

  /** `print` followed by exactly one string literal. */
  function ParsePrint(p: Parser): (r: Outcome)
    ensures r.Done? ==> ExprFollows(p, r.parser) && r.parser.program == p.program
    ensures r.Done? ==> |r.parser.tokens| < |p.tokens|
    ensures r.Done? ==> (r.result.Success? <==> Next(p).StringLiteral?)
    ensures r.Done? && r.result.Success? ==>
      r.result.value.kind == PrintExpression(Next(p).text) && r.result.value.returnType == ReturnString
    decreases |p.tokens|
  {
    if |p.tokens| == 0 then Panic
    else if Next(p).StringLiteral? then
      var p1 := Bump(Advance(p));
      Done(Success(Expression(p1.nodeCount, PrintExpression(Next(p).text), ReturnString)), p1)
    else Done(Failed("Expected string after 'print'"), Advance(p))
  }

  /** An expression that must be followed by `;`. */
  function ParseStatement(p: Parser): (r: Outcome)
    ensures r.Done? ==> ExprFollows(p, r.parser)
    ensures r.Done? && r.result.Success? ==> ExprTyped(r.result.value)
    ensures r.Done? && EnvTyped(p.program.env) ==> EnvTyped(r.parser.program.env)
    decreases |p.tokens|
  {
    match ParseExpression(p)
    case Panic => Panic
    case Done(Failed(m), q) => Done(Failed(m), q)
    case Done(Success(s), q) =>
      if |q.tokens| == 0 then Panic
      else if Next(q) == Semicolon then Done(Success(s), Advance(q))
      else Done(Failed("Expected ';' after expression"), Advance(q))
  }

  /** A `var` or `fn` declaration, pushed onto the program on success, or else
      an expression statement read from the token AFTER the consumed one. */
  function ParseDeclaration(p: Parser): (r: Outcome)
    ensures r.Done? ==> Follows(p, r.parser) && |r.parser.tokens| < |p.tokens|
    ensures r.Done? && r.result.Success? ==> StmtTyped(r.result.value)
    ensures r.Done? && ProgramTyped(p.program) ==> ProgramTyped(r.parser.program)
    decreases |p.tokens|, 2
  {
    if |p.tokens| == 0 then Panic
    else
      var t := Next(p);
      var p1 := Advance(p);
      if t == VarDecl then
        match ParseVarDecl(p1)
        case Panic => Panic
        case Done(Success(s), p2) => Done(Success(s), Push(p2, s))
        case Done(Failed(m), p2) => Done(Failed(m), p2)
      else if t == FunctionDecl then
        match ParseFunctionHeader(p1)
        case Panic => Panic
        case Done(Success(s), p2) => Done(Success(s), Push(p2, s))
        case Done(Failed(m), p2) => Done(Failed(m), p2)
      else ParseExpressionStatement(p1)
  }

  /** A statement led by the token after the consumed one: a `print`, a block,
      or an expression statement (whose first token is discarded as well). */
  function ParseExpressionStatement(p: Parser): (r: Outcome)
    ensures r.Done? ==> Follows(p, r.parser) && |r.parser.tokens| < |p.tokens|
    ensures r.Done? && r.result.Success? ==> StmtTyped(r.result.value)
    ensures r.Done? && ProgramTyped(p.program) ==> ProgramTyped(r.parser.program)
    decreases |p.tokens|, 1
  {
    if |p.tokens| == 0 then Panic
    else
      var t := Next(p);
      var p1 := Advance(p);
      if t == Print then ParsePrint(p1)
      else if t == LeftBrace then BlockLoop([], p1)
      else ParseStatement(p1)
  }

  /** The members of a block, until `}`. The block has the block type whatever
      its members are; end of input or an exhausted stream before `}` fails,
      and a failing member fails the block. */
  function BlockLoop(members: seq<Expression>, p: Parser): (r: Outcome)
    ensures r.Done? ==> Follows(p, r.parser)
    ensures r.Done? && r.result.Success? ==>
      && r.result.value.returnType == ReturnBlock
      && r.result.value.kind.BlockExpression?
      && members <= r.result.value.kind.members
      && (forall i :: |members| <= i < |r.result.value.kind.members| ==> StmtTyped(r.result.value.kind.members[i]))
    ensures r.Done? && ProgramTyped(p.program) ==> ProgramTyped(r.parser.program)
    decreases |p.tokens|, 3
  {
    if |p.tokens| == 0 then Done(Failed("Ran out of tokens"), p)
    else if Next(p) == RightBrace then
      var p1 := Bump(Advance(p));
      Done(Success(Expression(p1.nodeCount, BlockExpression(members), ReturnBlock)), p1)
    else if Next(p) == EOF then Done(Failed("Unexpected EOF"), p)
    else
      match ParseDeclaration(p)
      case Panic => Panic
      case Done(Success(e), p1) => BlockLoop(members + [e], Bump(p1))
      case Done(Failed(m), p1) => Done(Failed(m), p1)
  }

  /** Appending a well-typed statement keeps a typed program typed, and keeps
      what was there before. */
  lemma PushKeepsProgram(p: Parser, e: Expression)
    ensures p.program.statements <= Push(p, e).program.statements
    ensures ProgramTyped(p.program) && StmtTyped(e) ==> ProgramTyped(Push(p, e).program)
  {
  }

  // ---------------------------------------------------------------------
  // The driver
  // ---------------------------------------------------------------------

  /** The top-level loop. End of input or an empty stream ends the program. A
      bare identifier pushes a copy of its existing binding. Any other token is
      consumed and a statement is read from the token after it. The first
      failure returns the program as it stands. */
  function ParseLoop(p: Parser): (r: Run)
    ensures r.Finished? ==> p.program.statements <= r.program.statements
    ensures r.Finished? && ProgramTyped(p.program) ==> ProgramTyped(r.program)
    decreases |p.tokens|
  {
    if |p.tokens| == 0 then Finished(p.program)
    else
      var p1 := Advance(p);
      if Next(p) == EOF then Finished(p1.program)
      else if Next(p).Identifier? then
        var id := Next(p).name;
        match GetValue(p1.program.env, id)
        case Success(e) =>
          TypedLookup(p1.program.env, id);
          ExprTypedIsStmtTyped(e);
          PushKeepsProgram(p1, e);
          var r := ParseLoop(Push(p1, e));
          PrefixTransitive(p.program.statements, Push(p1, e).program.statements, r);
          r
        case Failed(_) => Finished(p1.program)
      else
        match ParseExpressionStatement(p1)
        case Panic => Panicked
        case Done(Success(s), p2) =>
          PushKeepsProgram(p2, s);
          var r := ParseLoop(Push(p2, s));
          PrefixTransitive(p.program.statements, Push(p2, s).program.statements, r);
          r
        case Done(Failed(_), p2) => Finished(p2.program)
  }

  lemma PrefixTransitive(a: seq<Statement>, b: seq<Statement>, r: Run)
    requires a <= b
    ensures r.Finished? && b <= r.program.statements ==> a <= r.program.statements
  {
  }

  /** Parses a whole token stream (next token last). Whatever program comes
      back, every statement and every binding in it is well typed. */
  function Parse(tokens: seq<Token>): (r: Run)
    ensures r.Finished? ==> ProgramTyped(r.program)
  {
    ParseLoop(NewParser(tokens))
  }
}

/** Properties of the parser that relate several rules or pin down one branch
    of the grammar (src/compiler/parser.rs). */
module ParserFacts {
  import opened Wrappers
  import opened Tokens
  import opened Ast
  import opened Environments
  import opened Parsing

  // ---------------------------------------------------------------------
  // No expression rule ever yields a binding node
  // ---------------------------------------------------------------------

  /** A successful outcome is not a binding node, and the scope is as before. */
  predicate Inert(p: Parser, r: Outcome) {
    r.Done? ==>
      && r.parser.program.env == p.program.env
      && (r.result.Success? ==> !r.result.value.kind.LiteralExpression?)
  }

  lemma {:induction false} PrimaryInert(p: Parser)
    ensures Inert(p, ParsePrimary(p))
    decreases |p.tokens|, 0
  {
    if |p.tokens| > 0 && Next(p) == LeftBrace {
      ExpressionInert(Advance(p));
    }
  }

  lemma {:induction false} UnaryInert(p: Parser)
    ensures Inert(p, ParseUnary(p))
    decreases |p.tokens|, 1
  {
    if |p.tokens| > 0 {
      if Next(p) == Bang || Next(p) == Subtract {
        UnaryInert(Advance(p));
      } else {
        PrimaryInert(Advance(p));
      }
    }
  }

  lemma {:induction false} OperandInert(level: nat, p: Parser)
    requires 1 <= level <= 4
    ensures Inert(p, Operand(level, p))
    decreases |p.tokens|, 3 * level - 1
  {
    if level == 1 {
      UnaryInert(p);
    } else {
      LevelInert(level - 1, p);
    }
    OperandInertFrom(level, p);
  }

  /** `Operand` is inert when the rule it delegates to is. */
  lemma OperandInertFrom(level: nat, p: Parser)
    requires 1 <= level <= 4
    requires level == 1 ==> Inert(p, ParseUnary(p))
    requires level > 1 ==> Inert(p, ParseLevel(level - 1, p))
    ensures Inert(p, Operand(level, p))
  {
  }

  lemma {:induction false} LevelInert(level: nat, p: Parser)
    requires 1 <= level <= 4
    ensures Inert(p, ParseLevel(level, p))
    decreases |p.tokens|, 3 * level + 1
  {
    var o := Operand(level, p);
    OperandInert(level, p);
    if o.Done? && o.result.Success? {
      FoldInert(level, o.result.value, o.parser);
    }
  }

  lemma {:induction false} FoldInert(level: nat, lhs: Expression, p: Parser)
    requires 1 <= level <= 4
    requires !lhs.kind.LiteralExpression?
    ensures Inert(p, FoldLoop(level, lhs, p))
    decreases |p.tokens|, 3 * level
  {
    if |p.tokens| > 0 && IsLevelOperator(level, Next(p)) {
      var p1 := Advance(p);
      var o := Operand(level, p1);
      OperandInert(level, p1);
      if o.Done? && o.result.Success? && lhs.returnType == o.result.value.returnType {
        var p3 := Bump(o.parser);
        FoldInert(level, Expression(p3.nodeCount, BinaryExpression(Next(p), lhs, o.result.value), lhs.returnType), p3);
      }
    }
  }

  lemma {:induction false} AssignmentInert(p: Parser)
    ensures Inert(p, ParseAssignment(p))
    decreases |p.tokens|, 20
  {
    LevelInert(4, p);
    var o := ParseLevel(4, p);
    if o.Done? && o.result.Success? && |o.parser.tokens| > 0 && Next(o.parser) == Assign {
      AssignmentInert(Advance(o.parser));
    }
  }

  /** No expression the grammar can read is a binding node, and reading one
      never changes the scope. */
  lemma {:induction false} ExpressionInert(p: Parser)
    ensures Inert(p, ParseExpression(p))
    decreases |p.tokens|, 21
  {
    if |p.tokens| > 0 && Next(p) != EOF {
      AssignmentInert(p);
    }
  }

  /** Consequently an assignment never commits: once `=` follows the left-hand
      side, the rule fails or panics, and no binding is ever added. */
  lemma AssignmentNeverCommits(p: Parser)
    ensures ParseAssignment(p).Done? && ParseAssignment(p).result.Success? ==>
      ParseLevel(4, p) == ParseAssignment(p)
    ensures ParseAssignment(p).Done? ==> ParseAssignment(p).parser.program.env == p.program.env
  {
    LevelInert(4, p);
    AssignmentInert(p);
  }

  // ---------------------------------------------------------------------
  // Single branches of the grammar
  // ---------------------------------------------------------------------

  /** A right operand of another type than the left one fails the whole level. */
  lemma FoldRejectsMismatch(level: nat, lhs: Expression, p: Parser)
    requires 1 <= level <= 4
    requires |p.tokens| > 0 && IsLevelOperator(level, Next(p))
    requires Operand(level, Advance(p)).Done? && Operand(level, Advance(p)).result.Success?
    requires Operand(level, Advance(p)).result.value.returnType != lhs.returnType
    ensures FoldLoop(level, lhs, p) == Done(Failed("Comparing different return types!"), Operand(level, Advance(p)).parser)
  {
  }

  /** A right operand of the left one's type is folded into a binary node of
      that type, with the operator that was read. */
  lemma FoldAcceptsMatch(level: nat, lhs: Expression, p: Parser)
    requires 1 <= level <= 4
    requires |p.tokens| > 0 && IsLevelOperator(level, Next(p))
    requires Operand(level, Advance(p)).Done? && Operand(level, Advance(p)).result.Success?
    requires Operand(level, Advance(p)).result.value.returnType == lhs.returnType
    ensures var q := Operand(level, Advance(p)).parser;
      FoldLoop(level, lhs, p) == FoldLoop(level,
        Expression(q.nodeCount + 1, BinaryExpression(Next(p), lhs, Operand(level, Advance(p)).result.value), lhs.returnType),
        Bump(q))
  {
  }

  /** The token after an operand is consumed even when it is not an operator
      of the level; the operand is then the result. */
  lemma FoldConsumesFollower(level: nat, lhs: Expression, p: Parser)
    requires 1 <= level <= 4
    requires |p.tokens| > 0 && !IsLevelOperator(level, Next(p))
    ensures FoldLoop(level, lhs, p) == Done(Success(lhs), Advance(p))
  {
  }

  /** A token that is not a prefix operator is discarded, and the primary rule
      reads the one after it. */
  lemma UnaryDiscardsNonOperator(p: Parser)
    requires |p.tokens| > 0 && Next(p) != Bang && Next(p) != Subtract
    ensures ParseUnary(p) == ParsePrimary(Advance(p))
  {
  }

  /** A unary node takes its type from the operator token, which maps to
      `ReturnInvalid`, whatever the operand's type. */
  lemma UnaryTypeFromOperator(p: Parser)
    requires |p.tokens| > 0 && (Next(p) == Bang || Next(p) == Subtract)
    ensures ParseUnary(p).Done? && ParseUnary(p).result.Success? ==>
      && ParseUnary(p).result.value.kind.UnaryExpression?
      && ParseUnary(p).result.value.kind.op == Next(p)
      && ParseUnary(p).result.value.returnType == ReturnInvalid
  {
    assert FromToken(Next(p)) == ReturnInvalid;
  }

  /** The assignment rule only peeks at the token after its left-hand side: any
      token but `=` leaves the stream as the left-hand side left it. */
  lemma AssignmentPeeks(p: Parser)
    requires ParseLevel(4, p).Done? && ParseLevel(4, p).result.Success?
    requires |ParseLevel(4, p).parser.tokens| > 0 && Next(ParseLevel(4, p).parser) != Assign
    ensures ParseAssignment(p) == ParseLevel(4, p)
  {
  }

  /** `var` names an existing binding: an unbound name fails right after it. */
  lemma VarNeedsExistingBinding(p: Parser)
    requires |p.tokens| > 0 && Next(p).Identifier?
    requires GetValue(p.program.env, Next(p).name).Failed?
    ensures ParseVarDecl(p) == Done(Failed("Variable not found"), Advance(p))
  {
  }

  /** A block fails at end of input or on an exhausted stream, and a failing
      member fails the block with the member's own result. */
  lemma BlockFailures(members: seq<Expression>, p: Parser)
    ensures |p.tokens| == 0 ==> BlockLoop(members, p) == Done(Failed("Ran out of tokens"), p)
    ensures |p.tokens| > 0 && Next(p) == EOF ==> BlockLoop(members, p) == Done(Failed("Unexpected EOF"), p)
    ensures
      (|p.tokens| > 0 && Next(p) != EOF && Next(p) != RightBrace
       && ParseDeclaration(p).Done? && ParseDeclaration(p).result.Failed?)
      ==> BlockLoop(members, p) == ParseDeclaration(p)
  {
  }

  /** The argument loop: `void` after an argument fails, and `)` with no
      argument fails. */
  lemma ArgumentListShape(name: string, retType: ReturnType, args: seq<Argument>, p: Parser)
    requires |p.tokens| > 0
    ensures Next(p) == VoidDecl && |args| > 0 ==>
      ArgLoop(name, retType, args, p) == Done(Failed("Unexpected void return type"), Advance(p))
    ensures Next(p) == RightParenthesis && |args| == 0 ==>
      ArgLoop(name, retType, args, p) == Done(Failed("Expected argument list"), Advance(p))
  {
  }

  /** The argument loop: end of input fails. */
  lemma ArgumentsEndAtEof(name: string, retType: ReturnType, args: seq<Argument>, p: Parser)
    requires |p.tokens| > 0 && Next(p) == EOF
    ensures ArgLoop(name, retType, args, p) == Done(Failed("Unexpected end of file"), Advance(p))
  {
    assert FromToken(Next(p)) == ReturnEOF;
  }

  /** The argument loop: a comma is skipped. */
  lemma ArgumentsSkipComma(name: string, retType: ReturnType, args: seq<Argument>, p: Parser)
    requires |p.tokens| > 0 && Next(p) == Comma
    ensures ArgLoop(name, retType, args, p) == ArgLoop(name, retType, args, Advance(p))
  {
    assert FromToken(Next(p)) == ReturnContinue;
  }

  /** The argument loop: `type : name` records an argument of the type the
      first token denotes, named by the identifier, and the loop carries on
      after the three tokens. */
  lemma ArgumentRecorded(name: string, retType: ReturnType, args: seq<Argument>, p: Parser, n: string)
    requires |p.tokens| >= 3 && IsArgumentType(FromToken(Next(p)))
    requires Next(Advance(p)) == Colon && Next(Advance(Advance(p))) == Identifier(n)
    ensures ArgLoop(name, retType, args, p) ==
      ArgLoop(name, retType, args + [Argument(FromToken(Next(p)), n)], Advance(Advance(Advance(p))))
  {
  }

  /** The argument loop: a type not followed by `:`, or a `:` not followed by
      a name, fails the header after consuming the offending token. */
  lemma ArgumentNeedsColonAndName(name: string, retType: ReturnType, args: seq<Argument>, p: Parser)
    requires |p.tokens| >= 2 && IsArgumentType(FromToken(Next(p)))
    ensures Next(Advance(p)) != Colon ==>
      ArgLoop(name, retType, args, p) == Done(Failed("Expected ')' after arguments"), Advance(Advance(p)))
    ensures |p.tokens| >= 3 && Next(Advance(p)) == Colon && !Next(Advance(Advance(p))).Identifier? ==>
      ArgLoop(name, retType, args, p) == Done(Failed("Expected argument name after ':'"), Advance(Advance(Advance(p))))
  {
  }

  // ---------------------------------------------------------------------
  // The driver
  // ---------------------------------------------------------------------

  /** The first failing statement ends the parse, and the program returned is
      the one the failing statement left behind. That is more than what was
      built before it when the statement is a block: a `var` or `fn` member
      pushes its declaration before the block fails. */
  lemma ParseStopsAtFirstFailure(p: Parser)
    requires |p.tokens| > 0 && Next(p) != EOF && !Next(p).Identifier?
    requires ParseExpressionStatement(Advance(p)).Done?
    requires ParseExpressionStatement(Advance(p)).result.Failed?
    ensures ParseLoop(p) == Finished(ParseExpressionStatement(Advance(p)).parser.program)
  {
  }

  /** The argument loop: `)` closing a non-empty list finishes the header
      with the arguments read, and records Arguments as its type. */
  lemma ArgumentsClose(name: string, retType: ReturnType, args: seq<Argument>, p: Parser)
    requires |p.tokens| > 0 && Next(p) == RightParenthesis && |args| > 0
    ensures ArgLoop(name, retType, args, p) == Done(Success(Expression(p.nodeCount + 1,
      FunctionHeaderExpression(FunctionHeader(name, ReturnArguments, args)), ReturnFunctionHeader)),
      Bump(Advance(p)))
  {
    assert FromToken(Next(p)) == ReturnArguments;
  }

  /** The argument loop: `type : name )` is a header with that one argument,
      of the type the first token denotes. */
  lemma OneArgument(name: string, retType: ReturnType, p: Parser)
    requires |p.tokens| >= 4 && IsArgumentType(FromToken(Next(p)))
    requires Next(Advance(p)) == Colon && Next(Advance(Advance(p))).Identifier?
    requires Next(Advance(Advance(Advance(p)))) == RightParenthesis
    ensures ArgLoop(name, retType, [], p) == Done(Success(Expression(p.nodeCount + 1,
      FunctionHeaderExpression(FunctionHeader(name, ReturnArguments,
        [Argument(FromToken(Next(p)), Next(Advance(Advance(p))).name)])), ReturnFunctionHeader)),
      Bump(Advance(Advance(Advance(Advance(p))))))
  {
    var arg := Argument(FromToken(Next(p)), Next(Advance(Advance(p))).name);
    ArgumentRecorded(name, retType, [], p, arg.ident);
    assert [] + [arg] == [arg];
    ArgumentsClose(name, retType, [arg], Advance(Advance(Advance(p))));
  }

  /** `name : type (` after `fn`, with a type other than the invalid one,
      starts the argument loop with no arguments and that declared type. */
  lemma HeaderStart(p: Parser)
    requires |p.tokens| >= 4 && Next(p).Identifier? && Next(Advance(p)) == Colon
    requires FromToken(Next(Advance(Advance(p)))) != ReturnInvalid
    requires Next(Advance(Advance(Advance(p)))) == LeftParenthesis
    ensures ParseFunctionHeader(p) ==
      ArgLoop(Next(p).name, FromToken(Next(Advance(Advance(p)))), [], Advance(Advance(Advance(Advance(p)))))
  {
  }

  /** A `var` or `fn` member of a block is pushed onto the program as soon as
      it is read, so it stays there when the block then fails at the end of
      input. */
  lemma BlockFailureKeepsDeclaration(members: seq<Expression>, p: Parser, e: Expression, h: Parser)
    requires |p.tokens| > 0
    requires || (Next(p) == VarDecl && ParseVarDecl(Advance(p)) == Done(Success(e), h))
             || (Next(p) == FunctionDecl && ParseFunctionHeader(Advance(p)) == Done(Success(e), h))
    requires |h.tokens| > 0 && Next(h) == EOF
    ensures BlockLoop(members, p) == Done(Failed("Unexpected EOF"), Bump(Push(h, e)))
    ensures BlockLoop(members, p).parser.program.statements == h.program.statements + [Statement(e)]
  {
    DeclarationPushed(p, e, h);
    BlockFailsAfterPush(members, p, e, h);
    assert Bump(Push(h, e)).program.statements == h.program.statements + [Statement(e)];
  }

  lemma BlockFailsAfterPush(members: seq<Expression>, p: Parser, e: Expression, h: Parser)
    requires |p.tokens| > 0 && Next(p) != RightBrace && Next(p) != EOF
    requires ParseDeclaration(p) == Done(Success(e), Push(h, e))
    requires |h.tokens| > 0 && Next(h) == EOF
    ensures BlockLoop(members, p) == Done(Failed("Unexpected EOF"), Bump(Push(h, e)))
  {
    BlockStep(members, p, e, h);
    BlockLoopAtEof(members + [e], h, e);
  }

  lemma BlockStep(members: seq<Expression>, p: Parser, e: Expression, h: Parser)
    requires |p.tokens| > 0 && Next(p) != RightBrace && Next(p) != EOF
    requires ParseDeclaration(p) == Done(Success(e), Push(h, e))
    ensures BlockLoop(members, p) == BlockLoop(members + [e], Bump(Push(h, e)))
  {
  }

  lemma DeclarationPushed(p: Parser, e: Expression, h: Parser)
    requires |p.tokens| > 0
    requires || (Next(p) == VarDecl && ParseVarDecl(Advance(p)) == Done(Success(e), h))
             || (Next(p) == FunctionDecl && ParseFunctionHeader(Advance(p)) == Done(Success(e), h))
    ensures ParseDeclaration(p) == Done(Success(e), Push(h, e))
  {
  }

  lemma BlockLoopAtEof(members: seq<Expression>, h: Parser, e: Expression)
    requires |h.tokens| > 0 && Next(h) == EOF
    ensures BlockLoop(members, Bump(Push(h, e))) == Done(Failed("Unexpected EOF"), Bump(Push(h, e)))
  {
    assert Bump(Push(h, e)).tokens == h.tokens;
  }

  /** `; { fn f : int ( int : a )` followed by end of input, next token last. */
  const FailingBlock: seq<Token> := [EOF, RightParenthesis, Identifier("a"), Colon, IntegerDecl,
    LeftParenthesis, IntegerDecl, Colon, Identifier("f"), FunctionDecl, LeftBrace, Semicolon]

  /** The header the block's `fn` member builds, as node `n`. */
  function HeaderOfF(n: nat): Expression {
    Expression(n, FunctionHeaderExpression(
      FunctionHeader("f", ReturnArguments, [Argument(ReturnInteger, "a")])), ReturnFunctionHeader)
  }

  /** Where each token of `f : int ( int : a )` sits as the header is read. */
  lemma HeaderTokens(p: Parser)
    requires p.tokens == FailingBlock[..9]
    ensures |p.tokens| == 9 && Next(p) == Identifier("f")
    ensures Next(Advance(p)) == Colon && Next(Advance(Advance(p))) == IntegerDecl
    ensures Next(Advance(Advance(Advance(p)))) == LeftParenthesis
    ensures var q := Advance(Advance(Advance(Advance(p))));
      && Next(q) == IntegerDecl && Next(Advance(q)) == Colon
      && Next(Advance(Advance(q))) == Identifier("a")
      && Next(Advance(Advance(Advance(q)))) == RightParenthesis
      && Advance(Advance(Advance(Advance(q)))).tokens == [EOF]
  {
  }

  /** `f : int ( int : a )` after `fn` builds the header and leaves only the
      end of input. */
  lemma FailingBlockHeader(p: Parser)
    requires p.tokens == FailingBlock[..9]
    ensures ParseFunctionHeader(p).Done?
    ensures ParseFunctionHeader(p).result == Success(HeaderOfF(p.nodeCount + 1))
    ensures var h := ParseFunctionHeader(p).parser;
      h.tokens == [EOF] && h.program == p.program
  {
    HeaderTokens(p);
    assert FromToken(IntegerDecl) == ReturnInteger;
    HeaderStart(p);
    OneArgument("f", ReturnInteger, Advance(Advance(Advance(Advance(p)))));
  }

  /** Where `;`, `{` and `fn` sit, and what is left after them. */
  lemma StatementTokens(p: Parser)
    requires p.tokens == FailingBlock
    ensures |p.tokens| == 12 && Next(p) == Semicolon && Next(Advance(p)) == LeftBrace
    ensures Next(Advance(Advance(p))) == FunctionDecl
    ensures Advance(Advance(Advance(p))).tokens == FailingBlock[..9]
  {
  }

  /** `{ fn f : int ( int : a )` and then end of input, after the `{`: the
      block fails, after its member has pushed the header onto the program. */
  lemma FailingBlockLoop(p: Parser)
    requires |p.tokens| > 0 && Next(p) == FunctionDecl && Advance(p).tokens == FailingBlock[..9]
    ensures BlockLoop([], p).Done? && BlockLoop([], p).result == Failed("Unexpected EOF")
    ensures BlockLoop([], p).parser.program
      == p.program.(statements := p.program.statements + [Statement(HeaderOfF(p.nodeCount + 1))])
  {
    FailingBlockHeader(Advance(p));
    var d := ParseFunctionHeader(Advance(p));
    assert d.parser.program == p.program && d.result.value == HeaderOfF(p.nodeCount + 1);
    BlockFailureKeepsDeclaration([], p, d.result.value, d.parser);
  }

  /** `; { fn f : int ( int : a )` followed by end of input. The block fails
      at the end of input, but its `fn` member has already pushed its header,
      so the program returned holds that header, though the block that holds
      it failed. */
  lemma FailedBlockKeepsDeclaration(p: Parser)
    requires p.tokens == FailingBlock
    ensures ParseLoop(p) == Finished(p.program.(statements :=
      p.program.statements + [Statement(HeaderOfF(p.nodeCount + 1))]))
  {
    StatementTokens(p);
    var p1 := Advance(p);
    var q := Advance(p1);
    FailingBlockLoop(q);
    assert q.program == p.program && q.nodeCount == p.nodeCount;
    var r := BlockLoop([], q);
    assert ParseExpressionStatement(p1) == r;
    assert ParseLoop(p) == Finished(r.parser.program);
    SameHeaderPushed(p, q);
  }

  lemma SameHeaderPushed(p: Parser, q: Parser)
    requires q.program == p.program && q.nodeCount == p.nodeCount
    ensures q.program.(statements := q.program.statements + [Statement(HeaderOfF(q.nodeCount + 1))])
      == p.program.(statements := p.program.statements + [Statement(HeaderOfF(p.nodeCount + 1))])
  {
  }

  /** The same from a fresh parser: the returned program is that one header. */
  lemma FailedBlockExample()
    ensures Parse(FailingBlock) == Finished(AstProgram([Statement(HeaderOfF(1))], 0, NewEnv()))
  {
    FailedBlockKeepsDeclaration(NewParser(FailingBlock));
  }

  /** A successful statement is appended after everything before it, and the
      parse carries on from there. */
  lemma ParseAppendsInOrder(p: Parser)
    requires |p.tokens| > 0 && Next(p) != EOF && !Next(p).Identifier?
    requires ParseExpressionStatement(Advance(p)).Done?
    requires ParseExpressionStatement(Advance(p)).result.Success?
    ensures var o := ParseExpressionStatement(Advance(p));
      && ParseLoop(p) == ParseLoop(Push(o.parser, o.result.value))
      && (ParseLoop(p).Finished? ==>
          o.parser.program.statements + [Statement(o.result.value)] <= ParseLoop(p).program.statements)
  {
  }

  /** A bare identifier statement is a copy of its binding, and an unbound one
      ends the parse. */
  lemma ParseIdentifierStatement(p: Parser)
    requires |p.tokens| > 0 && Next(p).Identifier?
    ensures GetValue(p.program.env, Next(p).name).Failed? ==> ParseLoop(p) == Finished(p.program)
    ensures GetValue(p.program.env, Next(p).name).Success? ==>
      ParseLoop(p) == ParseLoop(Push(Advance(p), GetValue(p.program.env, Next(p).name).value))
  {
  }

  /** End of input, or an exhausted stream, ends the parse with the program as
      it stands. */
  lemma ParseEndsAtEof(p: Parser)
    requires |p.tokens| == 0 || Next(p) == EOF
    ensures ParseLoop(p) == Finished(p.program)
  {
  }
}

/** The syntax tree the parser builds, its static types, and the mapping from
    tokens to types (src/compiler/parser.rs, lines 7-262). */
module Ast {
  import opened Wrappers
  import opened Tokens

  /** The static type attached to every node. Value types and declared types
      share this one enumeration, as in the source. */
  datatype ReturnType =
    | ReturnVoid | ReturnBool | ReturnString | ReturnFloat | ReturnInteger
    | ReturnCollection | ReturnStruct | ReturnInvalid | ReturnArguments
    | ReturnContinue | ReturnFunction | ReturnFunctionHeader | ReturnBlock
    | ReturnEOF

  /** A node: its id (from a per-parser or per-scope counter), its shape and its
      static type. */
  datatype Expression = Expression(id: nat, kind: ExpressionKind, returnType: ReturnType)

  datatype ExpressionKind =
    | Literal(token: Token)
    | LiteralExpression(name: string, value: Expression)
    | AssignmentExpression(target: string, source: Expression)
    | PrintExpression(message: string)
    | BlockExpression(members: seq<Expression>)
    | VarExpression(initializer: Expression)
    | ConstExpression(constant: Expression)
    | UnaryExpression(op: Token, operand: Expression)
    | BinaryExpression(binop: Token, left: Expression, right: Expression)
    | ConditionalExpression(condition: Expression, consequence: Expression)
    | LoopExpression(loopBody: Expression)
    | FunctionExpression(definition: Function)
    | FunctionHeaderExpression(header: FunctionHeader)

  datatype Argument = Argument(argType: ReturnType, ident: string)

  datatype FunctionHeader = FunctionHeader(name: string, headerType: ReturnType, args: seq<Argument>)

  /** A function with a body; the grammar never builds one. */
  datatype Function = Function(signature: FunctionHeader, body: Expression)

  /** The result of one grammar rule or scope operation. */
  datatype ParseResult = Success(value: Expression) | Failed(reason: string)

  datatype Statement = Statement(expr: Expression)

  /** The type a token denotes when read as a type or a literal. */
  function FromToken(t: Token): ReturnType {
    if t == VoidDecl then ReturnVoid
    else if t == BooleanDecl || t.BooleanLiteral? then ReturnBool
    else if t == IntegerDecl || t.IntegerLiteral? then ReturnInteger
    else if t == StringDecl || t.StringLiteral? then ReturnString
    else if t == FloatDecl || t.FloatLiteral? then ReturnFloat
    else if t == CollectionDecl then ReturnCollection
    else if t == StructDecl then ReturnStruct
    else if t == RightParenthesis then ReturnArguments
    else if t == Comma then ReturnContinue
    else if t == EOF then ReturnEOF
    else ReturnInvalid
  }

  /** The declaration keyword that names a value type, if there is one: an
      independent table in the other direction. */
  function DeclarationOf(rt: ReturnType): Option<Token> {
    match rt
    case ReturnVoid => Some(VoidDecl)
    case ReturnBool => Some(BooleanDecl)
    case ReturnInteger => Some(IntegerDecl)
    case ReturnString => Some(StringDecl)
    case ReturnFloat => Some(FloatDecl)
    case ReturnCollection => Some(CollectionDecl)
    case ReturnStruct => Some(StructDecl)
    case _ => None
  }

  /** Every declared type is reached from its keyword. */
  lemma DeclaredTypesRoundTrip(rt: ReturnType)
    ensures DeclarationOf(rt).Some? ==> FromToken(DeclarationOf(rt).value) == rt
  {
  }

  /** A literal has the type its declaration keyword names, so a literal may
      stand wherever a value of that declared type is expected. */
  lemma LiteralsTypedAsDeclared(t: Token)
    ensures t.BooleanLiteral? ==> FromToken(t) == FromToken(BooleanDecl) == ReturnBool
    ensures t.IntegerLiteral? ==> FromToken(t) == FromToken(IntegerDecl) == ReturnInteger
    ensures t.StringLiteral? ==> FromToken(t) == FromToken(StringDecl) == ReturnString
    ensures t.FloatLiteral? ==> FromToken(t) == FromToken(FloatDecl) == ReturnFloat
  {
  }

  /** The tokens `FromToken` does not send to `ReturnInvalid`: the seven type
      keywords, the four literal classes, `,`, `)` and end of input. */
  predicate HasType(t: Token) {
    || t.BooleanLiteral? || t.IntegerLiteral? || t.StringLiteral? || t.FloatLiteral?
    || DeclarationOf(FromToken(t)) == Some(t)
    || t == Comma || t == RightParenthesis || t == EOF
  }

  lemma InvalidExactlyWhenUntyped(t: Token)
    ensures FromToken(t) == ReturnInvalid <==> !HasType(t)
    ensures t == Comma ==> FromToken(t) == ReturnContinue
    ensures t == RightParenthesis ==> FromToken(t) == ReturnArguments
    ensures t == EOF ==> FromToken(t) == ReturnEOF
  {
  }

  /** The typing discipline of the expression grammar: a binary node has two
      operands of its own type, a unary node has its operator's type, a leaf has
      its token's type, and a binding carries the type of its value. Any other
      shape is not an expression result. */
  predicate ExprTyped(e: Expression)
    decreases e
  {
    match e.kind
    case Literal(t) => e.returnType == FromToken(t)
    case UnaryExpression(op, x) => e.returnType == FromToken(op) && ExprTyped(x)
    case BinaryExpression(_, l, r) =>
      l.returnType == e.returnType && r.returnType == e.returnType
      && ExprTyped(l) && ExprTyped(r)
    case LiteralExpression(_, v) => e.returnType == v.returnType && ExprTyped(v)
    case AssignmentExpression(_, v) => e.returnType == v.returnType && ExprTyped(v)
    case _ => false
  }

  /** The typing discipline of statements: a block has the block type whatever
      its members, a `var` statement has its initializer's type, a `print` the
      string type, a header the header type; anything else is an expression. */
  predicate StmtTyped(e: Expression)
    decreases e
  {
    match e.kind
    case BlockExpression(members) =>
      e.returnType == ReturnBlock
      && forall i :: 0 <= i < |members| ==> StmtTyped(members[i])
    case VarExpression(x) => e.returnType == x.returnType && ExprTyped(x)
    case PrintExpression(_) => e.returnType == ReturnString
    case FunctionHeaderExpression(_) => e.returnType == ReturnFunctionHeader
    case _ => ExprTyped(e)
  }

  lemma ExprTypedIsStmtTyped(e: Expression)
    ensures ExprTyped(e) ==> StmtTyped(e)
  {
  }
}

/** The closed token vocabulary of the language and the keyword table
    (src/compiler/token.rs). */
module Tokens {
  import opened Wrappers

  /** One lexical unit. `FloatLiteral` keeps the literal's text: the model does
      not interpret floating-point values. */
  datatype Token =
    | Illegal | EOF
    | Assign
    | Add | Subtract | Multiply | Divide
    | Or | And | LogicalOr | LogicalAnd
    | ShiftLeft | ShiftRight | Xor | Modulo
    | LessThan | GreaterThan | LessThanEqual | GreaterThanEqual
    | Bang | Equality | NotEquality
    | Dot | Comma | LeftParenthesis | RightParenthesis | LeftBrace | RightBrace
    | Semicolon | Colon | Quote
    | If | Else | Return | Match | For | While
    | Comment
    | Super | Struct | Function
    | VarDecl | ConstDecl
    | Identifier(name: string)
    | DotDot | RangeLiteral
    | StringLiteral(text: string)
    | IntegerLiteral(value: i32)
    | FloatLiteral(lexeme: string)
    | BooleanLiteral(truth: bool)
    | CollectionLiteral
    | StringDecl | IntegerDecl | FloatDecl | BooleanDecl | CollectionDecl | StructDecl
    | FunctionDecl | VoidDecl
    | Null
    | Error(message: string)
    | Print

  /** The token a freshly defaulted slot holds. */
  function DefaultToken(): (t: Token)
    ensures t == Illegal && Spelling(t) == None
    ensures forall word :: Lookup(word) != t
  {
    Illegal
  }

  /** The 21 reserved words of the language. */
  const ReservedWords: set<string> :=
    {"fn", "const", "var", "match", "return", "super", "if", "else", "null",
     "for", "while", "true", "false", "void", "collection", "int", "float",
     "string", "bool", "struct", "print"}

  /** The reserved word a keyword token is spelled with, if it is one. This is
      the inverse direction of `Lookup`, written as a table of its own. */
  function Spelling(t: Token): Option<string> {
    match t
    case FunctionDecl => Some("fn")
    case ConstDecl => Some("const")
    case VarDecl => Some("var")
    case Match => Some("match")
    case Return => Some("return")
    case Super => Some("super")
    case If => Some("if")
    case Else => Some("else")
    case Null => Some("null")
    case For => Some("for")
    case While => Some("while")
    case BooleanLiteral(b) => if b then Some("true") else Some("false")
    case VoidDecl => Some("void")
    case CollectionDecl => Some("collection")
    case IntegerDecl => Some("int")
    case FloatDecl => Some("float")
    case StringDecl => Some("string")
    case BooleanDecl => Some("bool")
    case StructDecl => Some("struct")
    case Print => Some("print")
    case _ => None
  }

  /** The keyword arms of the lookup: the token a reserved word stands for. */
  function Keyword(word: string): Option<Token>
  {
    match word
    case "fn" => Some(FunctionDecl)
    case "const" => Some(ConstDecl)
    case "var" => Some(VarDecl)
    case "match" => Some(Match)
    case "return" => Some(Return)
    case "super" => Some(Super)
    case "if" => Some(If)
    case "else" => Some(Else)
    case "null" => Some(Null)
    case "for" => Some(For)
    case "while" => Some(While)
    case "true" => Some(BooleanLiteral(true))
    case "false" => Some(BooleanLiteral(false))
    case "void" => Some(VoidDecl)
    case "collection" => Some(CollectionDecl)
    case "int" => Some(IntegerDecl)
    case "float" => Some(FloatDecl)
    case "string" => Some(StringDecl)
    case "bool" => Some(BooleanDecl)
    case "struct" => Some(StructDecl)
    case "print" => Some(Print)
    case _ => None
  }

  /** `Keyword` is defined on exactly the reserved words. */
  lemma KeywordReserved(word: string)
    ensures Keyword(word).Some? <==> word in ReservedWords
  {
  }

  /** `Keyword` agrees with the independent `Spelling` table. */
  lemma KeywordSpelled(word: string)
    ensures Keyword(word).Some? ==> Spelling(Keyword(word).value) == Some(word)
  {
  }

  /** Classifies a scanned word: a reserved word becomes its keyword token,
      anything else an identifier carrying exactly that text. Matching is exact
      and case-sensitive. */
  function Lookup(word: string): (t: Token)
    ensures if word in ReservedWords then Spelling(t) == Some(word) else t == Identifier(word)
  {
    KeywordReserved(word);
    KeywordSpelled(word);
    match Keyword(word)
    case Some(k) => k
    case None => Identifier(word)
  }

  /** Every keyword token is reached from exactly its spelling: `Lookup` and
      `Spelling` are inverse on the reserved words. */
  lemma LookupSpellingRoundTrip(t: Token, word: string)
    ensures Spelling(t) == Some(word) ==> Lookup(word) == t
    ensures word in ReservedWords ==> Spelling(Lookup(word)) == Some(word)
  {
    if Spelling(t) == Some(word) {
      assert word in ReservedWords;
      assert !Lookup(word).Identifier?;
    }
  }

  /** Two different reserved words never give the same token. */
  lemma LookupInjectiveOnReserved(w1: string, w2: string)
    requires w1 in ReservedWords && w2 in ReservedWords
    requires Lookup(w1) == Lookup(w2)
    ensures w1 == w2
  {
    assert Spelling(Lookup(w1)) == Some(w1);
  }

  /** The keyword test of the source, and case-sensitivity. */
  lemma LookupExamples()
    ensures Lookup("fn") == FunctionDecl
    ensures Lookup("Fn") == Identifier("Fn")
    ensures Lookup("true") == BooleanLiteral(true)
    ensures Lookup("false") == BooleanLiteral(false)
    ensures Lookup("PRINT") == Identifier("PRINT")
  {
  }
}

/**
  The syntax tree of src/ast/ast.rs. The source's `Node`, `Statement` and
  `Expression` traits with their boxed trait objects become closed datatypes;
  each node keeps the token it was built from.
 */
module Ast {
  import opened Wrappers
  import opened Tokens

  datatype Identifier = Identifier(token: Token, value: string)
  {
    function TokenLiteral(): string
    {
      token.literal
    }

    function String(): string
    {
      value
    }
  }

  /** The expression forms; an identifier is the only one the source defines. */
  datatype Expression = IdentifierExpression(identifier: Identifier)
  {
    function TokenLiteral(): string
    {
      identifier.TokenLiteral()
    }

    function String(): string
    {
      identifier.String()
    }

    /** Downcast to an identifier; undone by `IdentifierExpression`. */
    function AsIdentifierExpression(): (r: Option<Identifier>)
      ensures r.Some? && IdentifierExpression(r.value) == this
    {
      match this
      case IdentifierExpression(id) => Some(id)
    }
  }

  /** `let <name> = <value>;`, whose value expression the source does not store yet. */
  datatype LetStatement = LetStatement(token: Token, name: Identifier)
  {
    function TokenLiteral(): string
    {
      token.literal
    }

    function String(): string
    {
      TokenLiteral() + " " + name.String() + " = " + ";"
    }
  }

  /** `return <value>;`, whose value expression the source does not store yet. */
  datatype ReturnStatement = ReturnStatement(token: Token)
  {
    function TokenLiteral(): string
    {
      token.literal
    }

    function String(): string
    {
      TokenLiteral() + " " + ";"
    }
  }

  datatype ExpressionStatement = ExpressionStatement(token: Token, expression: Expression)
  {
    function TokenLiteral(): string
    {
      token.literal
    }

    function String(): string
    {
      expression.String()
    }
  }

  /**
    The types that implement the source's `Statement` trait: the three statement
    structs and also `Identifier`, whose downcasts all give `None`.
   */
  datatype Statement =
    | LetStmt(letStatement: LetStatement)
    | ReturnStmt(returnStatement: ReturnStatement)
    | ExpressionStmt(expressionStatement: ExpressionStatement)
    | IdentifierStmt(identifier: Identifier)
  {
    function TokenLiteral(): string
    {
      match this
      case LetStmt(s) => s.TokenLiteral()
      case ReturnStmt(s) => s.TokenLiteral()
      case ExpressionStmt(s) => s.TokenLiteral()
      case IdentifierStmt(id) => id.TokenLiteral()
    }

    function String(): string
    {
      match this
      case LetStmt(s) => s.String()
      case ReturnStmt(s) => s.String()
      case ExpressionStmt(s) => s.String()
      case IdentifierStmt(id) => id.String()
    }

    /** Some exactly for a let statement, and then undone by `LetStmt`. */
    function AsLetStatement(): (r: Option<LetStatement>)
      ensures r.Some? <==> LetStmt?
      ensures r.Some? ==> LetStmt(r.value) == this
    {
      if LetStmt? then Some(letStatement) else None
    }

    /** Some exactly for a return statement, and then undone by `ReturnStmt`. */
    function AsReturnStatement(): (r: Option<ReturnStatement>)
      ensures r.Some? <==> ReturnStmt?
      ensures r.Some? ==> ReturnStmt(r.value) == this
    {
      if ReturnStmt? then Some(returnStatement) else None
    }

    /** Some exactly for an expression statement, and then undone by `ExpressionStmt`. */
    function AsExpressionStatement(): (r: Option<ExpressionStatement>)
      ensures r.Some? <==> ExpressionStmt?
      ensures r.Some? ==> ExpressionStmt(r.value) == this
    {
      if ExpressionStmt? then Some(expressionStatement) else None
    }
  }

  /** At most one downcast of a statement succeeds. */
  lemma DowncastsExclusive(st: Statement)
    ensures !(st.AsLetStatement().Some? && st.AsReturnStatement().Some?)
    ensures !(st.AsLetStatement().Some? && st.AsExpressionStatement().Some?)
    ensures !(st.AsReturnStatement().Some? && st.AsExpressionStatement().Some?)
    ensures st.IdentifierStmt? ==>
      st.AsLetStatement() == None && st.AsReturnStatement() == None && st.AsExpressionStatement() == None
  {
  }

  /**
    An identifier, used as an expression or as a statement, has its token's
    literal as token literal and its value as rendering; built from its token,
    as the parser builds it, both are the same text.
   */
  lemma IdentifierRendering(id: Identifier)
    ensures IdentifierExpression(id).TokenLiteral() == IdentifierStmt(id).TokenLiteral() == id.token.literal
    ensures IdentifierExpression(id).String() == IdentifierStmt(id).String() == id.value
    ensures id.value == id.token.literal ==> id.String() == id.TokenLiteral()
  {
  }

  /**
    A let statement renders as its keyword, a space, its name, " = " and ";".
    The first clause unfolds the renderer; what it implies is the second: the
    rendering begins with the token literal and ends with ";".
   */
  lemma LetRendering(st: Statement)
    requires st.LetStmt?
    ensures st.String() == st.TokenLiteral() + " " + st.letStatement.name.value + " = ;"
    ensures st.TokenLiteral() <= st.String() && st.String()[|st.String()| - 1] == ';'
  {
  }

  /**
    A return statement renders as its keyword, a space and ";". As for a let
    statement, the second clause is the consequence: the rendering begins with
    the token literal and ends with ";".
   */
  lemma ReturnRendering(st: Statement)
    requires st.ReturnStmt?
    ensures st.String() == st.TokenLiteral() + " ;"
    ensures st.TokenLiteral() <= st.String() && st.String()[|st.String()| - 1] == ';'
  {
  }

  /**
    An expression statement renders as its expression, and an identifier as its
    value: the renderers unfolded through the `Statement` dispatch.
   */
  lemma ExpressionRendering(st: Statement)
    requires st.ExpressionStmt? || st.IdentifierStmt?
    ensures st.ExpressionStmt? ==> st.String() == st.expressionStatement.expression.identifier.value
    ensures st.IdentifierStmt? ==> st.String() == st.identifier.value
  {
  }

  /** The in-order concatenation of the statements' renderings. */
  function Rendered(stmts: seq<Statement>): string
  {
    if stmts == [] then "" else Rendered(stmts[..|stmts| - 1]) + stmts[|stmts| - 1].String()
  }

  /** Rendering distributes over concatenation of statement lists. */
  lemma {:induction false} RenderedAppend(a: seq<Statement>, b: seq<Statement>)
    ensures Rendered(a + b) == Rendered(a) + Rendered(b)
    decreases |b|
  {
    if b == [] {
      assert a + b == a;
    } else {
      var n := |b| - 1;
      assert (a + b)[..|a + b| - 1] == a + b[..n];
      assert (a + b)[|a + b| - 1] == b[n];
      calc {
        Rendered(a + b);
        Rendered(a + b[..n]) + b[n].String();
        { RenderedAppend(a, b[..n]); }
        Rendered(a) + Rendered(b[..n]) + b[n].String();
      }
    }
  }

  datatype Program = Program(statements: seq<Statement>)
  {
    /** The first statement's token literal, or "" for an empty program. */
    function TokenLiteral(): (r: string)
      ensures |statements| > 0 ==> r == statements[0].TokenLiteral()
      ensures |statements| == 0 ==> r == ""
    {
      if |statements| > 0 then statements[0].TokenLiteral() else ""
    }

    /** Accumulates the statements' renderings, in order. */
    method String() returns (out: string)
      ensures out == Rendered(statements)
    {
      out := "";
      for i := 0 to |statements|
        invariant out == Rendered(statements[..i])
      {
        assert statements[..i + 1][..i] == statements[..i];
        out := out + statements[i].String();
      }
      assert statements[..|statements|] == statements;
    }
  }

  /** The rendering test of the source: one let statement renders as "let myVar = ;". */
  method TestString() returns (rendered: string)
    ensures rendered == "let myVar = ;"
  {
    var program := Program([LetStmt(LetStatement(
      Token(Let, "let"),
      Identifier(Token(Ident, "myVar"), "myVar")))]);
    rendered := program.String();
  }
}

/**
  The token vocabulary of the Monkey language (src/token/token.rs): a closed set
  of token types, the token record, the keyword table and `lookup_ident`.
 */
module Tokens {
  import opened Wrappers

  /** One constructor per token-type constant of the source. */
  datatype TokenType =
    | Illegal | Eof
    | Ident | Int
    | Assign | Plus | Minus | Bang | Asterisk | Slash
    | Lt | Gt | Eq | NotEq
    | Comma | Semicolon
    | LParen | RParen | LBrace | RBrace
    | Function | Let | True | False | If | Else | Return

  datatype Token = Token(tokenType: TokenType, literal: string)

  /** The string each token-type constant stands for in the source. */
  function TypeName(t: TokenType): string
  {
    match t
    case Illegal => "ILLEGAL"
    case Eof => "EOF"
    case Ident => "IDENT"
    case Int => "INT"
    case Assign => "="
    case Plus => "+"
    case Minus => "-"
    case Bang => "!"
    case Asterisk => "*"
    case Slash => "/"
    case Lt => "<"
    case Gt => ">"
    case Eq => "=="
    case NotEq => "!="
    case Comma => ","
    case Semicolon => ";"
    case LParen => "("
    case RParen => ")"
    case LBrace => "{"
    case RBrace => "}"
    case Function => "FUNCTION"
    case Let => "LET"
    case True => "TRUE"
    case False => "FALSE"
    case If => "IF"
    case Else => "ELSE"
    case Return => "RETURN"
  }

  /** Reads a token-type constant back from its string. */
  function TypeFromName(name: string): Option<TokenType>
  {
    match name
    case "ILLEGAL" => Some(Illegal)
    case "EOF" => Some(Eof)
    case "IDENT" => Some(Ident)
    case "INT" => Some(Int)
    case "=" => Some(Assign)
    case "+" => Some(Plus)
    case "-" => Some(Minus)
    case "!" => Some(Bang)
    case "*" => Some(Asterisk)
    case "/" => Some(Slash)
    case "<" => Some(Lt)
    case ">" => Some(Gt)
    case "==" => Some(Eq)
    case "!=" => Some(NotEq)
    case "," => Some(Comma)
    case ";" => Some(Semicolon)
    case "(" => Some(LParen)
    case ")" => Some(RParen)
    case "{" => Some(LBrace)
    case "}" => Some(RBrace)
    case "FUNCTION" => Some(Function)
    case "LET" => Some(Let)
    case "TRUE" => Some(True)
    case "FALSE" => Some(False)
    case "IF" => Some(If)
    case "ELSE" => Some(Else)
    case "RETURN" => Some(Return)
    case _ => None
  }

  /**
    Every type constant is read back from its string, so no two constants share
    a string: comparing the source's type strings is comparing these constructors.
   */
  lemma {:induction false} TypeNameRoundTrip(t: TokenType)
    ensures TypeFromName(TypeName(t)) == Some(t)
  {
    match t
    case Illegal =>
    case Eof =>
    case Ident =>
    case Int =>
    case Assign =>
    case Plus =>
    case Minus =>
    case Bang =>
    case Asterisk =>
    case Slash =>
    case Lt =>
    case Gt =>
    case Eq =>
    case NotEq =>
    case Comma =>
    case Semicolon =>
    case LParen =>
    case RParen =>
    case LBrace =>
    case RBrace =>
    case Function =>
    case Let =>
    case True =>
    case False =>
    case If =>
    case Else =>
    case Return =>
  }

  /** The token-type constants are pairwise distinct strings. */
  lemma TypeNamesDistinct(a: TokenType, b: TokenType)
    ensures TypeName(a) == TypeName(b) <==> a == b
  {
    TypeNameRoundTrip(a);
    TypeNameRoundTrip(b);
  }

  /** The keyword table, in the source's order. */
  const Keywords: seq<(string, TokenType)> := [
    ("fn", Function),
    ("let", Let),
    ("true", True),
    ("false", False),
    ("if", If),
    ("else", Else),
    ("return", Return)
  ]

  /** Whether the string is one of the keyword table's spellings. */
  predicate IsKeyword(ident: string)
  {
    exists i :: 0 <= i < |Keywords| && Keywords[i].0 == ident
  }

  /** The keyword table has no spelling twice, so the first match is the only one. */
  lemma KeywordSpellingsDistinct()
    ensures forall i, j :: 0 <= i < j < |Keywords| ==> Keywords[i].0 != Keywords[j].0
  {
  }

  /** First-match search of `table` from entry `from` on; `Ident` when nothing matches. */
  function LookupFrom(table: seq<(string, TokenType)>, ident: string, from: nat): TokenType
    requires from <= |table|
    decreases |table| - from
  {
    if from == |table| then Ident
    else if table[from].0 == ident then table[from].1
    else LookupFrom(table, ident, from + 1)
  }

  /** The search returns the type of the first entry that matches, and `Ident` when none does. */
  lemma {:induction false} LookupFromFinds(table: seq<(string, TokenType)>, ident: string, from: nat)
    requires from <= |table|
    ensures forall i :: (from <= i < |table| && table[i].0 == ident &&
                         forall j :: from <= j < i ==> table[j].0 != ident) ==> LookupFrom(table, ident, from) == table[i].1
    ensures (forall i :: from <= i < |table| ==> table[i].0 != ident) ==> LookupFrom(table, ident, from) == Ident
    decreases |table| - from
  {
    if from < |table| {
      LookupFromFinds(table, ident, from + 1);
    }
  }

  /**
    `lookup_ident`: the keyword table's entries tried in order, `Ident` when
    none matches. `LookupIdentIsSearch` proves this is `LookupFrom` on the table.
   */
  function LookupIdent(ident: string): (t: TokenType)
    ensures IsKeywordType(t) || t == Ident
    ensures t == Let <==> ident == "let"
    ensures t == Function <==> ident == "fn"
  {
    if ident == "fn" then Function
    else if ident == "let" then Let
    else if ident == "true" then True
    else if ident == "false" then False
    else if ident == "if" then If
    else if ident == "else" then Else
    else if ident == "return" then Return
    else Ident
  }

  /** `LookupIdent` is the first-match search of the keyword table. */
  lemma LookupIdentIsSearch(ident: string)
    ensures LookupIdent(ident) == LookupFrom(Keywords, ident, 0)
  {
    LookupFromFinds(Keywords, ident, 0);
    KeywordSpellingsDistinct();
    if IsKeyword(ident) {
      var i :| 0 <= i < |Keywords| && Keywords[i].0 == ident;
      KeywordEntry(i);
    } else {
      NoKeyword(ident);
    }
  }

  /** Each table entry maps its spelling to its type under `LookupIdent`. */
  lemma KeywordEntry(i: nat)
    requires i < |Keywords|
    ensures LookupIdent(Keywords[i].0) == Keywords[i].1
  {
  }

  /** A string that is no keyword spelling is none of the seven literals. */
  lemma NoKeyword(ident: string)
    requires !IsKeyword(ident)
    ensures LookupIdent(ident) == Ident
  {
    assert Keywords[0].0 == "fn" && Keywords[1].0 == "let" && Keywords[2].0 == "true";
    assert Keywords[3].0 == "false" && Keywords[4].0 == "if" && Keywords[5].0 == "else";
    assert Keywords[6].0 == "return";
  }

  /** Keyword spellings map to their keyword types; every other string to `Ident`. */
  lemma LookupIdentSpec(ident: string)
    ensures forall i :: 0 <= i < |Keywords| && Keywords[i].0 == ident ==> LookupIdent(ident) == Keywords[i].1
    ensures !IsKeyword(ident) ==> LookupIdent(ident) == Ident
  {
    forall i | 0 <= i < |Keywords| && Keywords[i].0 == ident
      ensures LookupIdent(ident) == Keywords[i].1
    {
      KeywordEntry(i);
    }
    if !IsKeyword(ident) {
      NoKeyword(ident);
    }
  }

  /** The seven keyword spellings and what they map to. */
  lemma LookupIdentKeywords()
    ensures LookupIdent("fn") == Function
    ensures LookupIdent("let") == Let
    ensures LookupIdent("true") == True
    ensures LookupIdent("false") == False
    ensures LookupIdent("if") == If
    ensures LookupIdent("else") == Else
    ensures LookupIdent("return") == Return
  {
    assert Keywords[0].0 == "fn";
    assert Keywords[1].0 == "let";
    assert Keywords[2].0 == "true";
    assert Keywords[3].0 == "false";
    assert Keywords[4].0 == "if";
    assert Keywords[5].0 == "else";
    assert Keywords[6].0 == "return";
  }

  /** The types the keyword table maps to. */
  predicate IsKeywordType(t: TokenType)
  {
    t == Function || t == Let || t == True || t == False || t == If || t == Else || t == Return
  }

  /**
    The result is a keyword type exactly when the string is a keyword spelling,
    and `Ident` otherwise; no other token type (ILLEGAL, EOF, INT, an operator)
    ever comes out, and `Let` comes out of "let" alone.
   */
  lemma LookupIdentRange(ident: string)
    ensures IsKeyword(ident) <==> IsKeywordType(LookupIdent(ident))
    ensures !IsKeyword(ident) <==> LookupIdent(ident) == Ident
    ensures LookupIdent(ident) == Let <==> ident == "let"
  {
    if IsKeyword(ident) {
      var i :| 0 <= i < |Keywords| && Keywords[i].0 == ident;
      KeywordEntry(i);
    } else {
      NoKeyword(ident);
    }
  }

  /** Matching is exact and case-sensitive. */
  lemma LookupIdentCaseSensitive()
    ensures LookupIdent("Let") == Ident
    ensures LookupIdent("lets") == Ident
    ensures LookupIdent("RETURN") == Ident
  {
  }
}

/**
  The parser of src/parser/parser.rs: a two-token window (`curToken`,
  `peekToken`) over the lexer, and a statement loop that recognises only
  `let <ident> = ... ;`. The methods are proved against ghost functions over the
  token stream the lexer hands out, held as the finite prefix
  `Tokenize(input, origin, |input|)`; every later token is `EOF`.
 */
module Parsing {
  import opened Wrappers
  import opened Tokens
  import opened Lexing
  import opened Ast

  /** The k-th token of a stream whose tokens from |ts| on are `EOF`. */
  function TokenOf(ts: seq<Token>, k: nat): Token
  {
    if k < |ts| then ts[k] else Token(Eof, "")
  }

  /** The k-th lexer position, where every step past the recorded ones moves by one. */
  function PositionOf(ps: seq<nat>, k: nat): nat
    requires |ps| > 0
  {
    if k < |ps| then ps[k] else ps[|ps| - 1] + (k - (|ps| - 1))
  }

  /** The recorded prefixes describe the lexer's whole stream. */
  lemma StreamPrefix(s: string, o: nat, k: nat)
    ensures TokenOf(Tokenize(s, o, |s|), k) == TokenAt(s, o, k)
    ensures PositionOf(Positions(s, o, |s|), k) == PosAfter(s, o, k)
  {
    if |s| <= k {
      PosAfterProgress(s, o, |s|);
      PosAfterBeyond(s, o, |s|, k);
      EofPastEnd(s, o, |s|, k);
    }
  }

  /**
    The index of the first `;` at or after m, or |ts| when there is none: every
    token from |ts| on is `EOF`.
   */
  function NextSemicolon(ts: seq<Token>, m: nat): (k: nat)
    ensures m <= k && (k <= |ts| || k == m)
    ensures k < |ts| ==> ts[k].tokenType == Semicolon
    decreases |ts| - m
  {
    if |ts| <= m then m
    else if ts[m].tokenType == Semicolon then m
    else NextSemicolon(ts, m + 1)
  }

  /** NextSemicolon finds the first `;` from m on, and finds one whenever there is one. */
  lemma {:induction false} NextSemicolonFirst(ts: seq<Token>, m: nat)
    ensures forall t :: m <= t < NextSemicolon(ts, m) && t < |ts| ==> ts[t].tokenType != Semicolon
    ensures NextSemicolon(ts, m) < |ts| <==> exists t :: m <= t < |ts| && ts[t].tokenType == Semicolon
    decreases |ts| - m
  {
    if m < |ts| && ts[m].tokenType != Semicolon {
      NextSemicolonFirst(ts, m + 1);
    }
  }

  /**
    Holds when the skip loop of a let statement whose `let` is the j-th token can
    stop: if `let` is followed by an identifier and `=`, a `;` comes later.
   */
  predicate AssignClosed(ts: seq<Token>, j: nat)
  {
    TokenOf(ts, j + 1).tokenType == Ident && TokenOf(ts, j + 2).tokenType == Assign ==>
      NextSemicolon(ts, j + 3) < |ts|
  }

  /** Every let statement of the stream is closed by a later `;`. */
  predicate SemicolonsClose(ts: seq<Token>)
  {
    forall j {:trigger AssignClosed(ts, j)} :: 0 <= j < |ts| && ts[j].tokenType == Let ==> AssignClosed(ts, j)
  }

  /** A parse result and the stream index of the current token afterwards. */
  datatype Parsed<T> = Parsed(result: Option<T>, last: nat)

  /** The specification of `parse_let_statement` with the j-th token current. */
  function LetAt(ts: seq<Token>, j: nat): (r: Parsed<LetStatement>)
    ensures j <= r.last
    ensures r.result.None? ==> r.last <= j + 1
    ensures r.result.None? ==>
      && TokenOf(ts, r.last + 1).tokenType != (if r.last == j then Ident else Assign)
      && (r.last == j + 1 ==> TokenOf(ts, j + 1).tokenType == Ident)
    ensures r.result.Some? ==>
      && j + 3 <= r.last
      && r.result.value.name.value == r.result.value.name.token.literal
      && (r.last < |ts| ==> ts[r.last].tokenType == Semicolon)
  {
    var name := TokenOf(ts, j + 1);
    if name.tokenType != Ident then
      Parsed(None, j)
    else if TokenOf(ts, j + 2).tokenType != Assign then
      Parsed(None, j + 1)
    else
      Parsed(Some(LetStatement(TokenOf(ts, j), Identifier(name, name.literal))), NextSemicolon(ts, j + 3))
  }

  /** The specification of `parse_statement` with the j-th token current. */
  function StatementAt(ts: seq<Token>, j: nat): (r: Parsed<Statement>)
    ensures j <= r.last
    ensures r.result.Some? ==> r.result.value.LetStmt? && TokenOf(ts, j).tokenType == Let
    ensures TokenOf(ts, j).tokenType != Let ==> r == Parsed(None, j)
  {
    if TokenOf(ts, j).tokenType != Let then
      Parsed(None, j)
    else
      var p := LetAt(ts, j);
      Parsed(if p.result.Some? then Some(LetStmt(p.result.value)) else None, p.last)
  }

  /**
    `parse_statement` gives None on every token but `LET`, and on `LET` it gives
    what `parse_let_statement` gives, as a statement.
   */
  lemma StatementOnlyLet(ts: seq<Token>, j: nat)
    ensures TokenOf(ts, j).tokenType != Let ==> StatementAt(ts, j) == Parsed(None, j)
    ensures var r := StatementAt(ts, j); r.result.Some? ==>
      && TokenOf(ts, j).tokenType == Let
      && r.result.value.LetStmt?
      && LetAt(ts, j) == Parsed(Some(r.result.value.letStatement), r.last)
    ensures TokenOf(ts, j).tokenType == Let ==>
      StatementAt(ts, j).last == LetAt(ts, j).last && (StatementAt(ts, j).result.Some? <==> LetAt(ts, j).result.Some?)
  {
  }

  /** The statements of a whole parse and the index of the `EOF` token it stops at. */
  datatype Run = Run(statements: seq<Statement>, end: nat)

  /**
    The specification of `parse_program` with the i-th token current and the
    statements `acc` already collected.
   */
  function ParseFrom(ts: seq<Token>, i: nat, acc: seq<Statement>): (r: Run)
    ensures i <= r.end && TokenOf(ts, r.end).tokenType == Eof
    decreases |ts| - i
  {
    if TokenOf(ts, i).tokenType == Eof then
      Run(acc, i)
    else
      var p := StatementAt(ts, i);
      ParseFrom(ts, p.last + 1, Collected(acc, p.result))
  }

  /** One iteration of the statement loop. */
  lemma Advance(ts: seq<Token>, i: nat, acc: seq<Statement>, r: Option<Statement>, next: nat, acc': seq<Statement>)
    requires TokenOf(ts, i).tokenType != Eof
    requires r == StatementAt(ts, i).result && next == StatementAt(ts, i).last + 1
    requires acc' == if r.Some? then acc + [r.value] else acc
    ensures ParseFrom(ts, i, acc) == ParseFrom(ts, next, acc')
  {
  }

  /** What a statement parse contributes to the program. */
  function Collected(acc: seq<Statement>, result: Option<Statement>): seq<Statement>
  {
    if result.Some? then acc + [result.value] else acc
  }

  /** After `let <ident> =`, the skip loop starts on the `=` and stops where LetAt says. */
  lemma LetSkip(ts: seq<Token>, j: nat)
    requires AssignClosed(ts, j)
    requires TokenOf(ts, j + 1).tokenType == Ident && TokenOf(ts, j + 2).tokenType == Assign
    ensures NextSemicolon(ts, j + 2) == LetAt(ts, j).last < |ts|
  {
  }

  /**
    `parse_let_statement` succeeds exactly on `let <ident> =`; the node holds the
    `let` token and the identifier token with its literal as the name, and the
    parse stops on the first `;` after the `=`.
   */
  lemma LetSuccess(ts: seq<Token>, j: nat)
    requires AssignClosed(ts, j)
    ensures LetAt(ts, j).result.Some? <==>
      TokenOf(ts, j + 1).tokenType == Ident && TokenOf(ts, j + 2).tokenType == Assign
    ensures var r := LetAt(ts, j); r.result.Some? ==>
      && r.result.value.token == TokenOf(ts, j)
      && r.result.value.name.token == TokenOf(ts, j + 1)
      && r.result.value.name.value == TokenOf(ts, j + 1).literal
      && j + 3 <= r.last < |ts| && ts[r.last].tokenType == Semicolon
      && (forall t :: j + 3 <= t < r.last ==> ts[t].tokenType != Semicolon)
  {
    NextSemicolonFirst(ts, j + 3);
  }

  /**
    A failed let statement consumes only the tokens that were as expected: the
    next statement parse starts at the token whose type did not match.
   */
  lemma LetFailureRecovery(ts: seq<Token>, j: nat)
    ensures var r := LetAt(ts, j); r.result.None? ==>
      var n := r.last + 1;
      && j < n <= j + 2
      && TokenOf(ts, n).tokenType != (if n == j + 1 then Ident else Assign)
      && (forall t :: j < t < n ==> TokenOf(ts, t).tokenType == Ident)
  {
  }

  /**
    Without a later `;`, the skip loop of a let statement never stops: from the
    `=` on, no token of the stream is a `;`, and from |ts| on every token is `EOF`,
    which the loop keeps pulling. `AssignClosed` is exactly what rules this out.
   */
  lemma UnclosedLetSpins(ts: seq<Token>, j: nat)
    requires TokenOf(ts, j + 1).tokenType == Ident && TokenOf(ts, j + 2).tokenType == Assign
    requires !AssignClosed(ts, j)
    ensures forall m :: j + 2 <= m ==> TokenOf(ts, m).tokenType != Semicolon
    ensures forall m :: |ts| <= m ==> TokenOf(ts, m) == Token(Eof, "")
  {
    NextSemicolonFirst(ts, j + 3);
  }

  /**
    A statement as `parse_let_statement` builds it from tokens of the stream: a
    `LET` token and an `IDENT` token whose literal names the identifier.
   */
  predicate ParsedLet(ts: seq<Token>, st: Statement)
  {
    && st.LetStmt?
    && st.letStatement.token.tokenType == Let && st.letStatement.token in ts
    && st.letStatement.name.token.tokenType == Ident && st.letStatement.name.token in ts
    && st.letStatement.name.value == st.letStatement.name.token.literal
  }

  /** The number of `LET` tokens at stream indices from i up to j. */
  function LetCount(ts: seq<Token>, i: nat, j: nat): nat
    decreases j - i
  {
    if j <= i then 0
    else (if TokenOf(ts, i).tokenType == Let then 1 else 0) + LetCount(ts, i + 1, j)
  }

  /** Counting from a later index finds no more `LET` tokens. */
  lemma {:induction false} LetCountMonotone(ts: seq<Token>, i: nat, n: nat, j: nat)
    requires i <= n
    ensures LetCount(ts, n, j) <= LetCount(ts, i, j)
    decreases n - i
  {
    if i < n {
      LetCountMonotone(ts, i + 1, n, j);
    }
  }

  /** Stepping from i past to n leaves out at most the `LET` token at i. */
  lemma LetCountStep(ts: seq<Token>, i: nat, n: nat, j: nat)
    requires i < n <= j
    ensures LetCount(ts, n, j) + (if TokenOf(ts, i).tokenType == Let then 1 else 0) <= LetCount(ts, i, j)
  {
    LetCountMonotone(ts, i + 1, n, j);
  }

  /** `parse_program` keeps what it has collected and only appends to it. */
  lemma {:induction false} ParseFromExtends(ts: seq<Token>, i: nat, acc: seq<Statement>)
    ensures acc <= ParseFrom(ts, i, acc).statements
    decreases |ts| - i
  {
    if TokenOf(ts, i).tokenType != Eof {
      var p := StatementAt(ts, i);
      var acc' := Collected(acc, p.result);
      StepStatements(ts, i, acc);
      ParseFromExtends(ts, p.last + 1, acc');
    }
  }

  /** Every statement `parse_program` appends is a let statement built from the stream. */
  lemma {:induction false} ParseFromLets(ts: seq<Token>, i: nat, acc: seq<Statement>)
    ensures var r := ParseFrom(ts, i, acc);
      forall k :: |acc| <= k < |r.statements| ==> ParsedLet(ts, r.statements[k])
    decreases |ts| - i
  {
    if TokenOf(ts, i).tokenType != Eof {
      var p := StatementAt(ts, i);
      var acc' := Collected(acc, p.result);
      StepStatements(ts, i, acc);
      ParseFromLets(ts, p.last + 1, acc');
      ParseFromExtends(ts, p.last + 1, acc');
      LetsKept(ts, acc, acc', ParseFrom(ts, p.last + 1, acc').statements);
    }
  }

  /** Statements appended in two rounds, each made only of parsed lets, are parsed lets. */
  lemma LetsKept(ts: seq<Token>, acc: seq<Statement>, acc': seq<Statement>, all: seq<Statement>)
    requires acc' <= all && |acc| <= |acc'|
    requires forall k :: |acc| <= k < |acc'| ==> ParsedLet(ts, acc'[k])
    requires forall k :: |acc'| <= k < |all| ==> ParsedLet(ts, all[k])
    ensures forall k :: |acc| <= k < |all| ==> ParsedLet(ts, all[k])
  {
    forall k | |acc| <= k < |acc'|
      ensures ParsedLet(ts, all[k])
    {
      assert all[k] == acc'[k];
    }
  }

  /** `parse_program` appends at most one statement for each `LET` token it passes. */
  lemma {:induction false} ParseFromCount(ts: seq<Token>, i: nat, acc: seq<Statement>)
    ensures var r := ParseFrom(ts, i, acc);
      |r.statements| <= |acc| + LetCount(ts, i, r.end)
    decreases |ts| - i
  {
    if TokenOf(ts, i).tokenType != Eof {
      var p := StatementAt(ts, i);
      var acc' := Collected(acc, p.result);
      StepStatements(ts, i, acc);
      var e := ParseFrom(ts, p.last + 1, acc').end;
      ParseFromCount(ts, p.last + 1, acc');
      LetCountStep(ts, i, p.last + 1, e);
    }
  }

  /** One statement parse adds at most one let statement, and only at a `LET` token. */
  lemma StepStatements(ts: seq<Token>, i: nat, acc: seq<Statement>)
    requires TokenOf(ts, i).tokenType != Eof
    ensures var p := StatementAt(ts, i);
      var acc' := Collected(acc, p.result);
      && ParseFrom(ts, i, acc) == ParseFrom(ts, p.last + 1, acc')
      && acc <= acc'
      && |acc'| <= |acc| + (if TokenOf(ts, i).tokenType == Let then 1 else 0)
      && (forall k :: |acc| <= k < |acc'| ==> ParsedLet(ts, acc'[k]))
  {
    var p := StatementAt(ts, i);
    if p.result.Some? {
      assert ts[i] == TokenOf(ts, i) && ts[i + 1] == TokenOf(ts, i + 1);
    }
  }

  /**
    The stream indices, from i on, of the `LET` tokens at which the statement
    loop parses a let statement successfully, in the order the loop meets them.
   */
  function LetStarts(ts: seq<Token>, i: nat): seq<nat>
    decreases |ts| - i
  {
    if TokenOf(ts, i).tokenType == Eof then []
    else
      var p := StatementAt(ts, i);
      (if p.result.Some? then [i] else []) + LetStarts(ts, p.last + 1)
  }

  /** `st` is the let statement `parse_let_statement` builds at the `LET` token at index j, at or after i. */
  predicate LetFoundAt(ts: seq<Token>, i: nat, j: nat, st: Statement)
  {
    && i <= j
    && TokenOf(ts, j).tokenType == Let
    && LetAt(ts, j).result.Some?
    && st == LetStmt(LetAt(ts, j).result.value)
  }

  /**
    The statements `sts` are the let statements found at the indices `js`, from i
    on, each index lying past the end of the statement before it.
   */
  predicate LetsInOrder(ts: seq<Token>, i: nat, js: seq<nat>, sts: seq<Statement>)
  {
    && |js| == |sts|
    && (forall k :: 0 <= k < |js| ==> LetFoundAt(ts, i, js[k], sts[k]))
    && (forall k :: 0 <= k < |js| - 1 ==> LetAt(ts, js[k]).last < js[k + 1])
  }

  /** A let found at i, put in front of lets found in order after its end, gives lets in order. */
  lemma LetsInOrderCons(ts: seq<Token>, i: nat, next: nat, st: Statement, js: seq<nat>, sts: seq<Statement>)
    requires LetFoundAt(ts, i, i, st) && LetAt(ts, i).last < next
    requires LetsInOrder(ts, next, js, sts)
    ensures LetsInOrder(ts, i, [i] + js, [st] + sts)
  {
    var js', sts' := [i] + js, [st] + sts;
    forall k | 0 <= k < |js'|
      ensures LetFoundAt(ts, i, js'[k], sts'[k])
    {
      if k > 0 {
        assert js'[k] == js[k - 1] && sts'[k] == sts[k - 1];
        assert LetFoundAt(ts, next, js[k - 1], sts[k - 1]);
      }
    }
    forall k | 0 <= k < |js'| - 1
      ensures LetAt(ts, js'[k]).last < js'[k + 1]
    {
      if k > 0 {
        assert js'[k] == js[k - 1] && js'[k + 1] == js[k];
      } else {
        assert LetFoundAt(ts, next, js[0], sts[0]);
      }
    }
  }

  /** Lets in order from a later index are in order from an earlier one. */
  lemma LetsInOrderFrom(ts: seq<Token>, i: nat, next: nat, js: seq<nat>, sts: seq<Statement>)
    requires i <= next && LetsInOrder(ts, next, js, sts)
    ensures LetsInOrder(ts, i, js, sts)
  {
    assert forall k :: 0 <= k < |js| ==> LetFoundAt(ts, next, js[k], sts[k]);
  }

  /** What a list gains past `acc`, when `acc'` is `acc` and one more statement. */
  lemma GainedCons(acc: seq<Statement>, st: Statement, all: seq<Statement>)
    requires acc + [st] <= all
    ensures all[|acc|..] == [st] + all[|acc| + 1..]
  {
    assert all[|acc|] == (acc + [st])[|acc|];
  }

  /**
    `parse_program` appends statements in source order: what it adds to `acc`
    are the let statements parsed at the indices `LetStarts(ts, i)`, which lie
    at or after i and each past the end of the statement before it.
   */
  lemma {:induction false} ParseFromOrder(ts: seq<Token>, i: nat, acc: seq<Statement>)
    ensures var r := ParseFrom(ts, i, acc);
      && acc <= r.statements
      && LetsInOrder(ts, i, LetStarts(ts, i), r.statements[|acc|..])
    decreases |ts| - i
  {
    ParseFromExtends(ts, i, acc);
    if TokenOf(ts, i).tokenType != Eof {
      var p := StatementAt(ts, i);
      var acc' := Collected(acc, p.result);
      var next := p.last + 1;
      StepStatements(ts, i, acc);
      ParseFromOrder(ts, next, acc');
      var all := ParseFrom(ts, next, acc').statements;
      if p.result.Some? {
        GainedCons(acc, p.result.value, all);
        LetsInOrderCons(ts, i, next, p.result.value, LetStarts(ts, next), all[|acc'|..]);
      } else {
        LetsInOrderFrom(ts, i, next, LetStarts(ts, next), all[|acc'|..]);
      }
    } else {
      assert ParseFrom(ts, i, acc).statements[|acc|..] == [];
    }
  }

  /** Every `LET` token of the stream has the literal "let". */
  predicate LetsSpelled(ts: seq<Token>)
  {
    forall t :: t in ts && t.tokenType == Let ==> t.literal == "let"
  }

  /** The lexer spells every `LET` token it returns as "let". */
  lemma StreamLetsSpelled(s: string, o: nat)
    ensures LetsSpelled(Tokenize(s, o, |s|))
  {
    var ts := Tokenize(s, o, |s|);
    forall t | t in ts && t.tokenType == Let
      ensures t.literal == "let"
    {
      var k :| 0 <= k < |ts| && ts[k] == t;
      ScanWellFormed(s, PosAfter(s, o, k));
    }
  }

  /**
    The program `parse_program` returns from a lexer's stream starts with a
    `let` statement, so its token literal is "let"; it is "" when no statement
    was parsed.
   */
  lemma ParsedTokenLiteral(s: string, o: nat)
    ensures var p := Program(ParseFrom(Tokenize(s, o, |s|), 0, []).statements);
      p.TokenLiteral() == if p.statements == [] then "" else "let"
  {
    var ts := Tokenize(s, o, |s|);
    StreamLetsSpelled(s, o);
    ParseFromLets(ts, 0, []);
  }

  /** A token stream and the lexer positions along it. */
  datatype Stream = Stream(tokens: seq<Token>, positions: seq<nat>)

  class Parser {
    const lexer: Lexer
    var curToken: Option<Token>
    var peekToken: Option<Token>
    /** The lexer position at which the parser's token stream starts. */
    ghost const origin: nat
    /** The lexer's token stream from `origin` and the positions along it. */
    ghost const stream: Stream
    /** The stream index of the current token; -2 before the window is filled. */
    ghost var index: int

    /**
      `tokens` and `positions` agree with the lexer's stream from `origin`.
      Only constants are involved, so this holds in every state once it holds.
     */
    ghost predicate Tracks()
    {
      |stream.positions| > 0
      && (forall k: nat {:trigger TokenAt(lexer.input, origin, k)} ::
            TokenOf(stream.tokens, k) == TokenAt(lexer.input, origin, k))
      && (forall k: nat {:trigger PosAfter(lexer.input, origin, k)} ::
            PositionOf(stream.positions, k) == PosAfter(lexer.input, origin, k))
    }

    /**
      The window holds the stream's tokens at `index` and `index + 1` (those
      that exist yet), and the lexer is positioned after the latter.
      `curToken` may be None, as while a let statement has taken it.
     */
    ghost predicate Window()
      reads this, lexer
    {
      lexer.Valid()
      && |stream.positions| > 0
      && -2 <= index
      && lexer.position == PositionOf(stream.positions, index + 2)
      && (if index + 1 < 0 then peekToken == None else peekToken == Some(TokenOf(stream.tokens, index + 1)))
      && (curToken.Some? ==> 0 <= index && curToken.value == TokenOf(stream.tokens, index))
    }

    /** The window is filled. */
    ghost predicate Valid()
      reads this, lexer
    {
      Window() && 0 <= index
    }

    /** Fills the window with the lexer's first two tokens. */
    constructor (lexer: Lexer)
      requires lexer.Valid()
      modifies lexer
      ensures this.lexer == lexer && origin == old(lexer.position)
      ensures stream.tokens == Tokenize(lexer.input, origin, |lexer.input|)
      ensures Valid() && Tracks() && index == 0
      ensures curToken == Some(TokenOf(stream.tokens, 0)) && peekToken == Some(TokenOf(stream.tokens, 1))
    {
      this.lexer := lexer;
      curToken := None;
      peekToken := None;
      origin := lexer.position;
      stream := Stream(Tokenize(lexer.input, lexer.position, |lexer.input|),
        Positions(lexer.input, lexer.position, |lexer.input|));
      index := -2;
      new;
      forall k: nat
        ensures TokenOf(stream.tokens, k) == TokenAt(lexer.input, origin, k)
        ensures PositionOf(stream.positions, k) == PosAfter(lexer.input, origin, k)
      {
        StreamPrefix(lexer.input, origin, k);
      }
      NextToken();
      NextToken();
    }

    /** Shifts the window by one token, pulling the next one from the lexer. */
    method NextToken()
      requires Window() && Tracks()
      modifies this, lexer
      ensures Window() && index == old(index) + 1
      ensures curToken == old(peekToken) && peekToken == Some(TokenOf(stream.tokens, index + 1))
    {
      ghost var s, p := lexer.input, lexer.position;
      curToken := peekToken;
      var tok := lexer.NextToken();
      peekToken := Some(tok);
      index := index + 1;
      assert p == PosAfter(s, origin, index + 1);
      assert tok == TokenAt(s, origin, index + 1);
      assert lexer.position == PosAfter(s, origin, index + 2);
    }

    /** Whether the current token is present and of type t. */
    function CurTokenIs(t: TokenType): (b: bool)
      requires Valid()
      reads this, lexer
      ensures b <==> curToken.Some? && TokenOf(stream.tokens, index).tokenType == t
    {
      match curToken
      case Some(ct) => ct.tokenType == t
      case None => false
    }

    /** Whether the next token is of type t. */
    function PeekTokenIs(t: TokenType): (b: bool)
      requires Valid()
      reads this, lexer
      ensures b <==> TokenOf(stream.tokens, index + 1).tokenType == t
    {
      peekToken.Some? && peekToken.value.tokenType == t
    }

    /** Advances exactly when the next token has type t. */
    method ExpectPeek(t: TokenType) returns (ok: bool)
      requires Valid() && Tracks()
      modifies this, lexer
      ensures Valid()
      ensures ok <==> TokenOf(stream.tokens, old(index) + 1).tokenType == t
      ensures ok ==> index == old(index) + 1 && curToken == old(peekToken)
      ensures !ok ==> unchanged(this) && unchanged(lexer)
    {
      if PeekTokenIs(t) {
        NextToken();
        ok := true;
      } else {
        ok := false;
      }
    }

    /** Moves the window on until the current token is a `;`. */
    method SkipToSemicolon()
      requires Valid() && Tracks() && curToken.Some? && NextSemicolon(stream.tokens, index) < |stream.tokens|
      modifies this, lexer
      ensures Valid() && curToken.Some?
      ensures index == NextSemicolon(stream.tokens, old(index))
    {
      ghost var w := NextSemicolon(stream.tokens, index);
      NextSemicolonFirst(stream.tokens, index);
      while !CurTokenIs(Semicolon)
        invariant Valid() && curToken.Some?
        invariant old(index) <= index <= w
        decreases w - index
      {
        NextToken();
      }
    }

    /** Parses `let <ident> = ... ;` with the `let` token current, as `LetAt` says. */
    method ParseLetStatement() returns (r: Option<LetStatement>)
      requires Valid() && Tracks() && AssignClosed(stream.tokens, index)
      requires TokenOf(stream.tokens, index + 1).tokenType == Ident && TokenOf(stream.tokens, index + 2).tokenType == Assign
        ==> curToken.Some?
      modifies this, lexer
      ensures Valid()
      ensures r == LetAt(stream.tokens, old(index)).result
      ensures index == LetAt(stream.tokens, old(index)).last
      ensures r.Some? <==> curToken.Some?
    {
      ghost var j := index;
      ghost var ts := stream.tokens;
      ghost var spec := LetAt(ts, j);
      var firstToken := curToken;
      curToken := None;
      var ok := ExpectPeek(Ident);
      if !ok {
        assert spec == Parsed(None, j);
        return None;
      }
      var identifierToken := curToken.value;
      curToken := None;
      var identifier := Identifier(identifierToken, identifierToken.literal);
      ok := ExpectPeek(Assign);
      if !ok {
        assert spec == Parsed(None, j + 1);
        return None;
      }
      assert spec.result == Some(LetStatement(TokenOf(ts, j), identifier));
      LetSkip(ts, j);
      SkipToSemicolon();
      r := Some(LetStatement(firstToken.value, identifier));
    }

    /** Parses a let statement when the current token is `LET`; any other token gives None. */
    method ParseStatement() returns (r: Option<Statement>)
      requires Valid() && Tracks() && curToken.Some?
      requires TokenOf(stream.tokens, index).tokenType == Let ==> AssignClosed(stream.tokens, index)
      modifies this, lexer
      ensures Valid()
      ensures r == StatementAt(stream.tokens, old(index)).result
      ensures index == StatementAt(stream.tokens, old(index)).last
      ensures curToken.Some? <==> TokenOf(stream.tokens, old(index)).tokenType != Let || r.Some?
    {
      match curToken.value.tokenType
      case Let =>
        var letStatement := ParseLetStatement();
        r := if letStatement.Some? then Some(LetStmt(letStatement.value)) else None;
      case _ =>
        r := None;
    }

    /** One pass of the statement loop: parse a statement, then step past it. */
    method ParseNext() returns (r: Option<Statement>)
      requires Valid() && Tracks() && curToken.Some? && SemicolonsClose(stream.tokens)
      requires curToken.value.tokenType != Eof
      modifies this, lexer
      ensures Valid() && curToken.Some?
      ensures r == StatementAt(stream.tokens, old(index)).result
      ensures index == StatementAt(stream.tokens, old(index)).last + 1
    {
      r := ParseStatement();
      NextToken();
    }

    /** Collects statements until the current token is `EOF`, as `ParseFrom` says. */
    method ParseProgram() returns (program: Program)
      requires Valid() && Tracks() && curToken.Some? && SemicolonsClose(stream.tokens)
      modifies this, lexer
      ensures Valid()
      ensures program.statements == ParseFrom(stream.tokens, old(index), []).statements
      ensures index == ParseFrom(stream.tokens, old(index), []).end
      ensures curToken == Some(TokenOf(stream.tokens, index)) && curToken.value.tokenType == Eof
    {
      var statements: seq<Statement> := [];
      ghost var whole := ParseFrom(stream.tokens, index, []);
      while curToken.value.tokenType != Eof
        invariant Valid() && curToken.Some?
        invariant whole == ParseFrom(stream.tokens, index, statements)
        decreases |stream.tokens| - index
      {
        ghost var i, before := index, statements;
        var stmt := ParseNext();
        if stmt.Some? {
          statements := statements + [stmt.value];
        }
        Advance(stream.tokens, i, before, stmt, index, statements);
      }
      program := Program(statements);
    }
  }
}

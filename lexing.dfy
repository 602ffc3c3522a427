/**
  The lexer of src/lexer/lexer.rs: a single-pass scanner with one character of
  lookahead. `Scan` is the specification of one `next_token` call as a function
  of the input and the position; the `Lexer` class is the scanner itself, whose
  methods are proved against it.
 */
module Lexing {
  import opened Wrappers
  import opened Tokens

  /** The sentinel the lexer reads past the end of its input. */
  const Nul: char := '\0'

  /** The character at `i`, or NUL once `i` is past the end of `s`. */
  function CharAt(s: seq<char>, i: nat): char
  {
    if i < |s| then s[i] else Nul
  }

  /** ASCII letters and `_` (the source's `is_alphabetic() || ch == '_'`). */
  predicate IsLetter(c: char)
    ensures IsLetter(c) ==> c != Nul && !IsWhitespace(c) && !IsDigit(c)
  {
    'a' <= c <= 'z' || 'A' <= c <= 'Z' || c == '_'
  }

  /** ASCII decimal digits (the source's `is_numeric()`). */
  predicate IsDigit(c: char)
  {
    '0' <= c <= '9'
  }

  /** The characters `skip_whitespace` skips. */
  predicate IsWhitespace(c: char)
  {
    c == ' ' || c == '\t' || c == '\n' || c == '\r'
  }

  /** The three character classes over which the lexer scans runs. */
  datatype CharClass = Whitespace | Letter | Digit

  predicate InClass(c: char, k: CharClass)
  {
    match k
    case Whitespace => IsWhitespace(c)
    case Letter => IsLetter(c)
    case Digit => IsDigit(c)
  }

  /**
    Where a run of class-`k` characters starting at `i` ends: the first position
    at or after `i` whose character is not in the class (maximal munch).
   */
  function RunEnd(s: seq<char>, i: nat, k: CharClass): (e: nat)
    ensures i <= e
    ensures !InClass(CharAt(s, e), k)
    ensures e == i || e <= |s|
    decreases |s| - i
  {
    if InClass(CharAt(s, i), k) then RunEnd(s, i + 1, k) else i
  }

  /** Every character of the run is in the class. */
  lemma {:induction false} RunEndInClass(s: seq<char>, i: nat, k: CharClass, j: nat)
    requires i <= j < RunEnd(s, i, k)
    ensures j < |s| && InClass(s[j], k)
    decreases |s| - i
  {
    if i < j {
      RunEndInClass(s, i + 1, k, j);
    }
  }

  /** `new_token`: the literal is the one character, or empty for NUL. */
  function NewToken(t: TokenType, c: char): (tok: Token)
    ensures tok.tokenType == t && |tok.literal| <= 1
    ensures tok.literal == [] <==> c == Nul
    ensures tok.literal != [] ==> tok.literal[0] == c
  {
    Token(t, if c == Nul then "" else [c])
  }

  /**
    The token type of a character that is a token by itself: the operators and
    delimiters, `=` and `!` when no `=` follows them, and NUL for EOF.
   */
  function OneCharType(c: char): Option<TokenType>
  {
    match c
    case '=' => Some(Assign)
    case '+' => Some(Plus)
    case '-' => Some(Minus)
    case '!' => Some(Bang)
    case '*' => Some(Asterisk)
    case '/' => Some(Slash)
    case '<' => Some(Lt)
    case '>' => Some(Gt)
    case ';' => Some(Semicolon)
    case '(' => Some(LParen)
    case ')' => Some(RParen)
    case '{' => Some(LBrace)
    case '}' => Some(RBrace)
    case ',' => Some(Comma)
    case '\0' => Some(Eof)
    case _ => None
  }

  /** Letters and digits begin no one-character token. */
  lemma LettersAndDigitsAreNotOneCharTokens(c: char)
    requires IsLetter(c) || IsDigit(c)
    ensures OneCharType(c) == None
  {
  }

  /** The outcome of one `next_token` call: the token and the new position. */
  datatype Scanned = Scanned(token: Token, next: nat)

  /**
    The token that starts at `q`, where no whitespace is left to skip, and the
    position after it: the `match` of `next_token`.
   */
  function ScanToken(s: seq<char>, q: nat): (r: Scanned)
    ensures r.next > q
  {
    var c := CharAt(s, q);
    if (c == '=' || c == '!') && CharAt(s, q + 1) == '=' then
      Scanned(Token(if c == '=' then Eq else NotEq, [c, CharAt(s, q + 1)]), q + 2)
    else if OneCharType(c).Some? then
      Scanned(NewToken(OneCharType(c).value, c), q + 1)
    else if IsLetter(c) then
      var e := RunEnd(s, q, Letter);
      Scanned(Token(LookupIdent(s[q..e]), s[q..e]), e)
    else if IsDigit(c) then
      var e := RunEnd(s, q, Digit);
      Scanned(Token(Int, s[q..e]), e)
    else
      Scanned(NewToken(Illegal, c), q + 1)
  }

  /** One `next_token` call on `s` from `position == p`: skip whitespace, then scan a token. */
  function Scan(s: seq<char>, p: nat): (r: Scanned)
    ensures r.next > p
  {
    ScanToken(s, RunEnd(s, p, Whitespace))
  }

  /** The lexer position after `k` calls of `next_token`, starting from `o`. */
  function PosAfter(s: seq<char>, o: nat, k: nat): nat
  {
    if k == 0 then o else Scan(s, PosAfter(s, o, k - 1)).next
  }

  /** The token returned by the `k`-th call (counting from 0) of `next_token` from `o`. */
  function TokenAt(s: seq<char>, o: nat, k: nat): Token
  {
    Scan(s, PosAfter(s, o, k)).token
  }

  /** The first `n` tokens returned from `o`. */
  function Tokenize(s: seq<char>, o: nat, n: nat): (ts: seq<Token>)
    ensures |ts| == n
    ensures forall k :: 0 <= k < n ==> ts[k] == TokenAt(s, o, k)
  {
    if n == 0 then [] else Tokenize(s, o, n - 1) + [TokenAt(s, o, n - 1)]
  }

  /** The positions `PosAfter(s, o, k)` for k from 0 to n. */
  function Positions(s: seq<char>, o: nat, n: nat): (ps: seq<nat>)
    ensures |ps| == n + 1
    ensures forall k :: 0 <= k <= n ==> ps[k] == PosAfter(s, o, k)
  {
    if n == 0 then [o] else Positions(s, o, n - 1) + [PosAfter(s, o, n)]
  }

  /** The text of an identifier token: a non-empty run of letters that is not a keyword. */
  predicate IsIdentifierText(v: string)
  {
    |v| > 0 && (forall i :: 0 <= i < |v| ==> IsLetter(v[i])) && LookupIdent(v) == Ident
  }

  /** Only whitespace from `p` on: `next_token` returns EOF with the empty literal. */
  lemma ScanAtEnd(s: seq<char>, p: nat)
    requires forall j :: p <= j < |s| ==> IsWhitespace(s[j])
    ensures Scan(s, p).token == Token(Eof, "")
    ensures Scan(s, p).next > |s|
  {
    var q := RunEnd(s, p, Whitespace);
    assert q >= |s| by {
      if q < |s| {
        assert false;
      }
    }
  }

  /** Past the end of the input a scan yields `EOF` and moves on by one position. */
  lemma ScanPastEnd(s: seq<char>, p: nat)
    requires |s| <= p
    ensures Scan(s, p) == Scanned(Token(Eof, ""), p + 1)
  {
    assert RunEnd(s, p, Whitespace) == p;
  }

  /** Past the end of the input, every call of `next_token` advances by exactly one. */
  lemma PosAfterBeyond(s: seq<char>, o: nat, n: nat, k: nat)
    requires n <= k && PosAfter(s, o, n) >= |s|
    ensures PosAfter(s, o, k) == PosAfter(s, o, n) + (k - n)
  {
    forall j: nat | PosAfter(s, o, j) >= |s|
      ensures PosAfter(s, o, j + 1) == PosAfter(s, o, j) + 1
    {
      StepPastEnd(s, o, j);
    }
    CountsOnFrom(j => PosAfter(s, o, j), |s|, n, k);
  }

  /** One call of `next_token` past the end of the input advances by one. */
  lemma StepPastEnd(s: seq<char>, o: nat, k: nat)
    requires PosAfter(s, o, k) >= |s|
    ensures PosAfter(s, o, k + 1) == PosAfter(s, o, k) + 1
  {
    ScanPastEnd(s, PosAfter(s, o, k));
  }

  /** A sequence of numbers that steps by one from every value at least `b` on counts on from there. */
  lemma {:induction false} CountsOnFrom(f: nat -> nat, b: nat, n: nat, k: nat)
    requires n <= k && f(n) >= b
    requires forall j: nat :: f(j) >= b ==> f(j + 1) == f(j) + 1
    ensures f(k) == f(n) + (k - n)
    decreases k - n
  {
    if n < k {
      CountsOnFrom(f, b, n + 1, k);
    }
  }

  /** Once the position is past the end of the input, every call returns EOF. */
  lemma EofPastEnd(s: seq<char>, o: nat, k: nat, m: nat)
    requires k <= m && PosAfter(s, o, k) >= |s|
    ensures PosAfter(s, o, m) >= |s|
    ensures TokenAt(s, o, m) == Token(Eof, "")
  {
    PosAfterBeyond(s, o, k, m);
    ScanPastEnd(s, PosAfter(s, o, m));
  }

  /**
    Once only whitespace is left, every further call of `next_token` returns EOF
    with the empty literal.
   */
  lemma EofForever(s: seq<char>, o: nat, k: nat, m: nat)
    requires k <= m
    requires forall j :: PosAfter(s, o, k) <= j < |s| ==> IsWhitespace(s[j])
    ensures TokenAt(s, o, m) == Token(Eof, "")
  {
    ScanAtEnd(s, PosAfter(s, o, k));
    if m > k {
      EofPastEnd(s, o, k + 1, m);
    }
  }

  /** A whitespace-only input yields EOF from its first token on. */
  lemma WhitespaceOnlyInput(s: seq<char>)
    requires forall j :: 0 <= j < |s| ==> IsWhitespace(s[j])
    ensures forall m :: TokenAt(s, 0, m) == Token(Eof, "")
  {
    forall m: nat
      ensures TokenAt(s, 0, m) == Token(Eof, "")
    {
      EofForever(s, 0, 0, m);
    }
  }

  /**
    `=` and `!` followed by `=` give the two-character operators and consume
    both characters; otherwise they give `ASSIGN` or `BANG` and consume one.
   */
  lemma ScanTwoCharOperators(s: seq<char>, p: nat)
    ensures var q := RunEnd(s, p, Whitespace);
      CharAt(s, q) == '=' ==>
        Scan(s, p) == if CharAt(s, q + 1) == '=' then Scanned(Token(Eq, "=="), q + 2)
                      else Scanned(Token(Assign, "="), q + 1)
    ensures var q := RunEnd(s, p, Whitespace);
      CharAt(s, q) == '!' ==>
        Scan(s, p) == if CharAt(s, q + 1) == '=' then Scanned(Token(NotEq, "!="), q + 2)
                      else Scanned(Token(Bang, "!"), q + 1)
  {
  }

  /**
    An identifier is the longest run of letters at the current character; its
    type is the keyword lookup of that run, and the first non-letter is left
    for the next call.
   */
  lemma ScanIdentifier(s: seq<char>, p: nat)
    requires IsLetter(CharAt(s, RunEnd(s, p, Whitespace)))
    ensures var q, r := RunEnd(s, p, Whitespace), Scan(s, p);
      && q < r.next <= |s|
      && r.token == Token(LookupIdent(s[q..r.next]), s[q..r.next])
      && (forall j :: q <= j < r.next ==> IsLetter(s[j]))
      && !IsLetter(CharAt(s, r.next))
  {
    var q := RunEnd(s, p, Whitespace);
    var e := RunEnd(s, q, Letter);
    LettersAndDigitsAreNotOneCharTokens(CharAt(s, q));
    forall j | q <= j < e
      ensures IsLetter(s[j])
    {
      RunEndInClass(s, q, Letter, j);
    }
  }

  /** A number is the longest run of digits, of type `INT`; the first non-digit is left. */
  lemma ScanNumber(s: seq<char>, p: nat)
    requires IsDigit(CharAt(s, RunEnd(s, p, Whitespace)))
    ensures var q, r := RunEnd(s, p, Whitespace), Scan(s, p);
      && q < r.next <= |s|
      && r.token == Token(Int, s[q..r.next])
      && (forall j :: q <= j < r.next ==> IsDigit(s[j]))
      && !IsDigit(CharAt(s, r.next))
  {
    var q := RunEnd(s, p, Whitespace);
    var e := RunEnd(s, q, Digit);
    LettersAndDigitsAreNotOneCharTokens(CharAt(s, q));
    forall j | q <= j < e
      ensures IsDigit(s[j])
    {
      RunEndInClass(s, q, Digit, j);
    }
  }

  /** The characters that begin an operator or delimiter token. */
  predicate IsOperatorStart(c: char)
  {
    c in "=+-!*/<>;(){},"
  }

  /** Any other character is `ILLEGAL`, carries itself as literal and is consumed alone. */
  lemma ScanIllegal(s: seq<char>, p: nat)
    requires var c := CharAt(s, RunEnd(s, p, Whitespace));
      c != Nul && !IsOperatorStart(c) && !IsLetter(c) && !IsDigit(c)
    ensures var q := RunEnd(s, p, Whitespace);
      Scan(s, p) == Scanned(Token(Illegal, [CharAt(s, q)]), q + 1)
  {
  }

  /**
    Every token but EOF carries as literal exactly the text it consumed after the
    skipped whitespace; EOF is returned exactly at a NUL (in particular past the
    end), carries the empty literal and consumes that one position.
   */
  lemma ScanConsumes(s: seq<char>, p: nat)
    ensures var q, r := RunEnd(s, p, Whitespace), Scan(s, p);
      && (r.token.tokenType == Eof <==> CharAt(s, q) == Nul)
      && (r.token.tokenType == Eof ==> r.token.literal == "" && r.next == q + 1)
      && (r.token.tokenType != Eof ==> q < r.next <= |s| && r.token.literal == s[q..r.next])
  {
    var q := RunEnd(s, p, Whitespace);
    var c := CharAt(s, q);
    if (c == '=' || c == '!') && CharAt(s, q + 1) == '=' {
      assert s[q..q + 2] == [c, CharAt(s, q + 1)];
    } else if OneCharType(c).Some? {
      if c != Nul {
        assert s[q..q + 1] == [c];
      }
    } else if IsLetter(c) {
      ScanIdentifier(s, p);
    } else if IsDigit(c) {
      ScanNumber(s, p);
    } else {
      assert s[q..q + 1] == [c];
    }
  }

  /**
    A `LET` token always spells "let", and an `IDENT` token's literal is a
    non-empty run of letters that is not a keyword.
   */
  lemma ScanWellFormed(s: seq<char>, p: nat)
    ensures var t := Scan(s, p).token;
      && (t.tokenType == Let ==> t.literal == "let")
      && (t.tokenType == Ident ==> IsIdentifierText(t.literal))
  {
    var q := RunEnd(s, p, Whitespace);
    var c := CharAt(s, q);
    if IsLetter(c) {
      ScanIdentifier(s, p);
      LookupIdentRange(Scan(s, p).token.literal);
    }
  }

  /** A run ends at `e` when every character before `e` is in the class and the one at `e` is not. */
  lemma {:induction false} RunEndIs(s: seq<char>, i: nat, k: CharClass, e: nat)
    requires i <= e
    requires forall j :: i <= j < e ==> InClass(CharAt(s, j), k)
    requires !InClass(CharAt(s, e), k)
    ensures RunEnd(s, i, k) == e
    decreases e - i
  {
    if i < e {
      RunEndIs(s, i + 1, k, e);
    }
  }

  /**
    Whether the character `c` may follow the text of a token of type `t`
    without changing how that token is scanned: a letter would extend an
    identifier or keyword, a digit a number, and `=` would turn `=` or `!`
    into `==` or `!=`.
   */
  predicate Separates(t: TokenType, c: char)
  {
    match t
    case Ident | Function | Let | True | False | If | Else | Return => !IsLetter(c)
    case Int => !IsDigit(c)
    case Assign | Bang => c != '='
    case _ => true
  }

  /**
    A run that `t` ends with, at position `i`, is the same run in any input
    holding `t` at `p` whose next character is outside the class.
   */
  lemma RunLocal(s: seq<char>, p: nat, t: seq<char>, i: nat, k: CharClass)
    requires p + |t| <= |s| && s[p..p + |t|] == t
    requires i <= |t| && RunEnd(t, i, k) == |t|
    requires !InClass(CharAt(s, p + |t|), k)
    ensures RunEnd(s, p + i, k) == p + |t| && s[p + i..p + |t|] == t[i..]
  {
    forall j | p + i <= j < p + |t|
      ensures InClass(CharAt(s, j), k)
    {
      RunEndInClass(t, i, k, j - p);
      assert s[p..p + |t|][j - p] == s[j];
    }
    RunEndIs(s, p + i, k, p + |t|);
    assert s[p + i..p + |t|] == s[p..p + |t|][i..];
  }

  /** The whitespace before a token that `t` holds is skipped alike in any input holding `t`. */
  lemma SkipLocal(s: seq<char>, p: nat, t: seq<char>)
    requires p + |t| <= |s| && s[p..p + |t|] == t
    requires RunEnd(t, 0, Whitespace) < |t|
    ensures RunEnd(s, p, Whitespace) == p + RunEnd(t, 0, Whitespace)
  {
    var qt := RunEnd(t, 0, Whitespace);
    forall j | p <= j < p + qt
      ensures InClass(CharAt(s, j), Whitespace)
    {
      RunEndInClass(t, 0, Whitespace, j - p);
      assert s[p..p + |t|][j - p] == s[j];
    }
    assert s[p..p + |t|][qt] == s[p + qt];
    RunEndIs(s, p, Whitespace, p + qt);
  }

  /**
    Scanning is local: when the text `t` scans as one token on its own,
    consuming all of it, the same token comes out of any input that holds `t`
    at `p`, provided the character after it does not glue onto it.
   */
  lemma ScanLocal(s: seq<char>, p: nat, t: seq<char>, tok: Token)
    requires p + |t| <= |s| && s[p..p + |t|] == t
    requires Scan(t, 0) == Scanned(tok, |t|)
    requires Separates(tok.tokenType, CharAt(s, p + |t|))
    ensures Scan(s, p) == Scanned(tok, p + |t|)
  {
    var qt := RunEnd(t, 0, Whitespace);
    assert qt < |t|;
    SkipLocal(s, p, t);
    ScanTokenLocal(s, p, t, qt, tok);
  }

  /** The token part of `ScanLocal`, once the whitespace has been skipped. */
  lemma ScanTokenLocal(s: seq<char>, p: nat, t: seq<char>, qt: nat, tok: Token)
    requires p + |t| <= |s| && s[p..p + |t|] == t
    requires qt < |t| && ScanToken(t, qt) == Scanned(tok, |t|)
    requires Separates(tok.tokenType, CharAt(s, p + |t|))
    ensures ScanToken(s, p + qt) == Scanned(tok, p + |t|)
  {
    if IsLetter(t[qt]) {
      WordLocal(s, p, t, qt, tok);
    } else if IsDigit(t[qt]) {
      NumberLocal(s, p, t, qt, tok);
    } else {
      OperatorLocal(s, p, t, qt, tok);
    }
  }

  /** `ScanTokenLocal` for an identifier or keyword. */
  lemma WordLocal(s: seq<char>, p: nat, t: seq<char>, qt: nat, tok: Token)
    requires p + |t| <= |s| && s[p..p + |t|] == t
    requires qt < |t| && ScanToken(t, qt) == Scanned(tok, |t|)
    requires IsLetter(t[qt])
    requires Separates(tok.tokenType, CharAt(s, p + |t|))
    ensures ScanToken(s, p + qt) == Scanned(tok, p + |t|)
  {
    WordAt(t, qt);
    WordSeparates(t[qt..RunEnd(t, qt, Letter)], CharAt(s, p + |t|));
    SameRun(s, p, t, qt, Letter);
    WordAt(s, p + qt);
  }

  /** The run at `qt` in `t`, which ends with `t`, is the same run in `s` that holds `t` at `p`. */
  lemma SameRun(s: seq<char>, p: nat, t: seq<char>, qt: nat, k: CharClass)
    requires p + |t| <= |s| && s[p..p + |t|] == t
    requires qt < |t| && RunEnd(t, qt, k) == |t|
    requires !InClass(CharAt(s, p + |t|), k)
    ensures s[p + qt] == t[qt]
    ensures RunEnd(s, p + qt, k) == p + |t|
    ensures s[p + qt..RunEnd(s, p + qt, k)] == t[qt..RunEnd(t, qt, k)]
  {
    assert s[p..p + |t|][qt] == s[p + qt];
    assert t[qt..|t|] == t[qt..];
    RunLocal(s, p, t, qt, k);
  }

  /** At a letter, `next_token` reads a word and looks it up. */
  lemma WordAt(s: seq<char>, q: nat)
    requires q < |s| && IsLetter(s[q])
    ensures var e := RunEnd(s, q, Letter);
      ScanToken(s, q) == Scanned(Token(LookupIdent(s[q..e]), s[q..e]), e)
  {
    LettersAndDigitsAreNotOneCharTokens(s[q]);
  }

  /** Only a non-letter separates a word from what follows it. */
  lemma WordSeparates(w: string, c: char)
    requires Separates(LookupIdent(w), c)
    ensures !IsLetter(c)
  {
    LookupIdentRange(w);
  }

  /** `ScanTokenLocal` for a number. */
  lemma NumberLocal(s: seq<char>, p: nat, t: seq<char>, qt: nat, tok: Token)
    requires p + |t| <= |s| && s[p..p + |t|] == t
    requires qt < |t| && ScanToken(t, qt) == Scanned(tok, |t|)
    requires IsDigit(t[qt])
    requires Separates(tok.tokenType, CharAt(s, p + |t|))
    ensures ScanToken(s, p + qt) == Scanned(tok, p + |t|)
  {
    assert s[p..p + |t|][qt] == s[p + qt];
    NumberAt(t, qt);
    NumberAt(s, p + qt);
    RunLocal(s, p, t, qt, Digit);
  }

  /** At a digit, `next_token` reads a number. */
  lemma NumberAt(s: seq<char>, q: nat)
    requires q < |s| && IsDigit(s[q])
    ensures var e := RunEnd(s, q, Digit);
      ScanToken(s, q) == Scanned(Token(Int, s[q..e]), e)
  {
    LettersAndDigitsAreNotOneCharTokens(s[q]);
  }

  /** `ScanTokenLocal` for a token that is neither an identifier nor a number. */
  lemma OperatorLocal(s: seq<char>, p: nat, t: seq<char>, qt: nat, tok: Token)
    requires p + |t| <= |s| && s[p..p + |t|] == t
    requires qt < |t| && ScanToken(t, qt) == Scanned(tok, |t|)
    requires !IsLetter(t[qt]) && !IsDigit(t[qt])
    requires Separates(tok.tokenType, CharAt(s, p + |t|))
    ensures ScanToken(s, p + qt) == Scanned(tok, p + |t|)
  {
    assert s[p..p + |t|][qt] == s[p + qt];
    if qt + 1 < |t| {
      assert s[p..p + |t|][qt + 1] == s[p + qt + 1];
    }
  }

  /** Two positions from which whitespace skipping ends alike scan alike. */
  lemma ScanSameStart(s: seq<char>, p: nat, p': nat)
    requires RunEnd(s, p, Whitespace) == RunEnd(s, p', Whitespace)
    ensures Scan(s, p) == Scan(s, p')
  {
  }

  /** Counting calls from `o` is counting from where the first call left off. */
  lemma {:induction false} PosAfterShift(s: seq<char>, o: nat, k: nat)
    requires k > 0
    ensures PosAfter(s, o, k) == PosAfter(s, Scan(s, o).next, k - 1)
    ensures TokenAt(s, o, k) == TokenAt(s, Scan(s, o).next, k - 1)
  {
    if k > 1 {
      PosAfterShift(s, o, k - 1);
    }
  }

  /** Every call advances the position by at least one. */
  lemma {:induction false} PosAfterProgress(s: seq<char>, o: nat, k: nat)
    ensures PosAfter(s, o, k) >= o + k
  {
    if k > 0 {
      PosAfterProgress(s, o, k - 1);
      var p := PosAfter(s, o, k - 1);
      var r := Scan(s, p);
      assert r.next > p;
      assert PosAfter(s, o, k) == r.next;
    }
  }

  class Lexer {
    const input: seq<char>
    var position: nat
    var readPosition: nat
    var ch: char

    /** The scanner's state is determined by `position`. */
    ghost predicate Valid()
      reads this
    {
      readPosition == position + 1 && ch == CharAt(input, position)
    }

    constructor (input: seq<char>)
      ensures Valid() && this.input == input && position == 0
    {
      this.input := input;
      position, readPosition, ch := 0, 0, Nul;
      new;
      ReadChar();
    }

    /** Moves to the next character, which is NUL once the input is exhausted. */
    method ReadChar()
      modifies this
      ensures position == old(readPosition) && readPosition == position + 1
      ensures ch == (if old(readPosition) >= |input| then Nul else input[old(readPosition)])
      ensures Valid()
    {
      if readPosition >= |input| {
        ch := Nul;
      } else {
        ch := input[readPosition];
      }
      position := readPosition;
      readPosition := readPosition + 1;
    }

    /** The character after the current one, without moving. */
    function PeakChar(): (c: char)
      reads this
      requires Valid()
      ensures c == CharAt(input, position + 1)
    {
      if readPosition >= |input| then Nul else input[readPosition]
    }

    /** Skips the blanks at the current character: the whitespace run ends there. */
    method SkipWhitespace()
      requires Valid()
      modifies this
      ensures Valid() && position == RunEnd(input, old(position), Whitespace)
    {
      while ch == ' ' || ch == '\t' || ch == '\n' || ch == '\r'
        invariant Valid() && old(position) <= position
        invariant RunEnd(input, position, Whitespace) == RunEnd(input, old(position), Whitespace)
        decreases |input| - position
      {
        ReadChar();
      }
    }

    /** Reads the longest run of letters and returns its text; the first non-letter stays current. */
    method ReadIdentifier() returns (literal: string)
      requires Valid() && position <= |input|
      modifies this
      ensures Valid() && position == RunEnd(input, old(position), Letter)
      ensures literal == input[old(position)..position]
    {
      var start := position;
      while IsLetter(ch)
        invariant Valid() && start <= position
        invariant RunEnd(input, position, Letter) == RunEnd(input, start, Letter)
        decreases |input| - position
      {
        ReadChar();
      }
      literal := input[start..position];
    }

    /** Reads the longest run of digits and returns its text; the first non-digit stays current. */
    method ReadNumber() returns (literal: string)
      requires Valid() && position <= |input|
      modifies this
      ensures Valid() && position == RunEnd(input, old(position), Digit)
      ensures literal == input[old(position)..position]
    {
      var start := position;
      while IsDigit(ch)
        invariant Valid() && start <= position
        invariant RunEnd(input, position, Digit) == RunEnd(input, start, Digit)
        decreases |input| - position
      {
        ReadChar();
      }
      literal := input[start..position];
    }

    /** Skips whitespace and returns the next token, as `Scan` says, leaving the lexer after it. */
    method NextToken() returns (tok: Token)
      requires Valid()
      modifies this
      ensures Valid() && Scanned(tok, position) == Scan(input, old(position))
    {
      SkipWhitespace();
      match ch {
        case '=' =>
          if PeakChar() == '=' {
            var first := ch;
            ReadChar();
            tok := Token(Eq, [first, ch]);
          } else {
            tok := NewToken(Assign, ch);
          }
        case '+' => tok := NewToken(Plus, ch);
        case '-' => tok := NewToken(Minus, ch);
        case '!' =>
          if PeakChar() == '=' {
            var first := ch;
            ReadChar();
            tok := Token(NotEq, [first, ch]);
          } else {
            tok := NewToken(Bang, ch);
          }
        case '*' => tok := NewToken(Asterisk, ch);
        case '/' => tok := NewToken(Slash, ch);
        case '<' => tok := NewToken(Lt, ch);
        case '>' => tok := NewToken(Gt, ch);
        case ';' => tok := NewToken(Semicolon, ch);
        case '(' => tok := NewToken(LParen, ch);
        case ')' => tok := NewToken(RParen, ch);
        case '{' => tok := NewToken(LBrace, ch);
        case '}' => tok := NewToken(RBrace, ch);
        case ',' => tok := NewToken(Comma, ch);
        case '\0' => tok := NewToken(Eof, ch);
        case _ =>
          if IsLetter(ch) {
            var literal := ReadIdentifier();
            return Token(LookupIdent(literal), literal);
          } else if IsDigit(ch) {
            var literal := ReadNumber();
            return Token(Int, literal);
          }
          tok := NewToken(Illegal, ch);
      }
      ReadChar();
    }
  }
}

/**
  Lexing a text that is spelled out token by token gives those tokens back.
  The text is a list of pieces, each some whitespace followed by a token's
  literal; `Lexes` says that every literal scans as its token on its own and
  that the character after it does not glue onto it. The lexer test of
  src/lexer/lexer.rs and the re-lexing of rendered statements rest on this.
 */
module Relexing {
  import opened Wrappers
  import opened Tokens
  import opened Lexing

  /** Some whitespace and then the literal of `token`. */
  datatype Piece = Piece(space: string, token: Token)

  /** The text a list of pieces spells. */
  function Text(ps: seq<Piece>): string
  {
    if ps == [] then "" else ps[0].space + ps[0].token.literal + Text(ps[1..])
  }

  /** The tokens a list of pieces stands for. */
  function TokensOf(ps: seq<Piece>): (ts: seq<Token>)
    ensures |ts| == |ps| && forall k :: 0 <= k < |ps| ==> ts[k] == ps[k].token
  {
    if ps == [] then [] else [ps[0].token] + TokensOf(ps[1..])
  }

  /** Every character of `w` is in class `k`. */
  predicate Within(w: string, k: CharClass)
  {
    w == [] || (InClass(w[0], k) && Within(w[1..], k))
  }

  /** Each character of a string within a class is in it. */
  lemma {:induction false} WithinAt(w: string, k: CharClass, i: nat)
    requires Within(w, k) && i < |w|
    ensures InClass(w[i], k)
  {
    if i > 0 {
      WithinAt(w[1..], k, i - 1);
    }
  }

  /** The first character of a piece's text. */
  function Lead(p: Piece): char
  {
    if p.space != [] then p.space[0] else CharAt(p.token.literal, 0)
  }

  /** The character after the first piece: the next piece's first, or the tail's. */
  function After(ps: seq<Piece>, tail: string): char
    requires |ps| > 0
  {
    if |ps| > 1 then Lead(ps[1]) else CharAt(tail, 0)
  }

  /**
    The literal is one the lexer produces for that token type from the
    literal alone: a word that `lookup_ident` maps to the type for `IDENT` and
    the keyword types, digits for `INT`, "==" and "!=", or the single
    character of an operator or delimiter.
   */
  predicate Spells(tok: Token)
  {
    var t := tok.literal;
    if tok.tokenType == Ident || IsKeywordType(tok.tokenType) then
      t != [] && Within(t, Letter) && LookupIdent(t) == tok.tokenType
    else if tok.tokenType == Int then
      t != [] && Within(t, Digit)
    else if tok.tokenType == Eq then
      t == "=="
    else if tok.tokenType == NotEq then
      t == "!="
    else
      |t| == 1 && tok.tokenType != Eof && OneCharType(t[0]) == Some(tok.tokenType)
  }

  /** A run of class `k` that fills `t` ends at the end of `t`. */
  lemma WithinRun(t: string, k: CharClass)
    requires Within(t, k)
    ensures RunEnd(t, 0, k) == |t|
  {
    forall j | 0 <= j < |t|
      ensures InClass(CharAt(t, j), k)
    {
      WithinAt(t, k, j);
    }
    RunEndIs(t, 0, k, |t|);
  }

  /** A word on its own scans as `lookup_ident` of itself and is consumed whole. */
  lemma ScanWord(t: string)
    requires t != [] && Within(t, Letter)
    ensures Scan(t, 0) == Scanned(Token(LookupIdent(t), t), |t|)
  {
    WithinAt(t, Letter, 0);
    WithinRun(t, Letter);
    assert RunEnd(t, 0, Whitespace) == 0;
    WordAt(t, 0);
    assert t[0..|t|] == t;
  }

  /** Digits on their own scan as one `INT` token and are consumed whole. */
  lemma ScanDigits(t: string)
    requires t != [] && Within(t, Digit)
    ensures Scan(t, 0) == Scanned(Token(Int, t), |t|)
  {
    WithinAt(t, Digit, 0);
    WithinRun(t, Digit);
    assert RunEnd(t, 0, Whitespace) == 0;
    NumberAt(t, 0);
    assert t[0..|t|] == t;
  }

  /** A literal the lexer spells scans, on its own, as its token and nothing more. */
  lemma SpellsScan(tok: Token)
    requires Spells(tok)
    ensures Scan(tok.literal, 0) == Scanned(tok, |tok.literal|)
  {
    if tok.tokenType == Ident || IsKeywordType(tok.tokenType) {
      ScanWord(tok.literal);
    } else if tok.tokenType == Int {
      ScanDigits(tok.literal);
    } else {
      OperatorScan(tok);
    }
  }

  /** `SpellsScan` for an operator or a delimiter. */
  lemma OperatorScan(tok: Token)
    requires tok.tokenType != Ident && tok.tokenType != Int && !IsKeywordType(tok.tokenType)
    requires Spells(tok)
    ensures Scan(tok.literal, 0) == Scanned(tok, |tok.literal|)
  {
    assert RunEnd(tok.literal, 0, Whitespace) == 0;
  }

  /**
    Every piece's whitespace is blank, its literal scans on its own as its
    token consuming all of it, and the character after it does not extend it.
   */
  predicate Lexes(ps: seq<Piece>, tail: string)
  {
    |ps| > 0 ==>
      && Within(ps[0].space, Whitespace)
      && Scan(ps[0].token.literal, 0) == Scanned(ps[0].token, |ps[0].token.literal|)
      && Separates(ps[0].token.tokenType, After(ps, tail))
      && Lexes(ps[1..], tail)
  }

  /** A piece whose literal the lexer spells, put in front of pieces that lex, lexes with them. */
  lemma LexesCons(p: Piece, ps: seq<Piece>, tail: string)
    requires Within(p.space, Whitespace) && Spells(p.token)
    requires Separates(p.token.tokenType, if ps == [] then CharAt(tail, 0) else Lead(ps[0]))
    requires Lexes(ps, tail)
    ensures Lexes([p] + ps, tail)
  {
    SpellsScan(p.token);
    assert ([p] + ps)[1..] == ps;
  }

  /** The text of two lists of pieces is the text of the first and then of the second. */
  lemma {:induction false} TextAppend(a: seq<Piece>, b: seq<Piece>)
    ensures Text(a + b) == Text(a) + Text(b)
  {
    if a == [] {
      assert a + b == b;
    } else {
      assert (a + b)[1..] == a[1..] + b;
      TextAppend(a[1..], b);
    }
  }

  /** The text of a piece put in front of pieces. */
  lemma TextCons(p: Piece, ps: seq<Piece>)
    ensures Text([p] + ps) == p.space + p.token.literal + Text(ps)
  {
    assert ([p] + ps)[1..] == ps;
  }

  /** The tokens of a piece put in front of pieces. */
  lemma TokensCons(p: Piece, ps: seq<Piece>)
    ensures TokensOf([p] + ps) == [p.token] + TokensOf(ps)
  {
    assert forall k :: 0 <= k < |[p] + ps| ==> ([p] + ps)[k] == if k == 0 then p else ps[k - 1];
  }

  /** `Lexes` looks at nothing of the tail but its first character. */
  lemma {:induction false} LexesTail(ps: seq<Piece>, tail: string, tail': string)
    requires Lexes(ps, tail) && CharAt(tail, 0) == CharAt(tail', 0)
    ensures Lexes(ps, tail')
  {
    if |ps| > 1 {
      LexesTail(ps[1..], tail, tail');
    }
  }

  /** Two lists of pieces that lex lex together, when the first is followed by the second's lead. */
  lemma {:induction false} LexesAppend(a: seq<Piece>, b: seq<Piece>, tail: string)
    requires b != [] && Lexes(a, [Lead(b[0])]) && Lexes(b, tail)
    ensures Lexes(a + b, tail)
  {
    if a == [] {
      assert a + b == b;
    } else {
      if |a| > 1 {
        LexesAppend(a[1..], b, tail);
      }
      AppendShape(a, b, tail);
      LexesFront(a, [Lead(b[0])], a + b, tail);
    }
  }

  /** How `a + b` starts: with `a[0]`, then `a[1..] + b`, and what follows its first piece. */
  lemma AppendShape(a: seq<Piece>, b: seq<Piece>, tail: string)
    requires a != [] && b != []
    ensures (a + b)[0] == a[0] && (a + b)[1..] == a[1..] + b
    ensures After(a + b, tail) == After(a, [Lead(b[0])])
  {
    assert (a + b)[1..] == a[1..] + b;
    if |a| > 1 {
      assert (a + b)[1] == a[1];
    }
  }

  /** A list lexes when its first piece does so in another list with the same next character. */
  lemma LexesFront(ps: seq<Piece>, tail: string, qs: seq<Piece>, tail': string)
    requires ps != [] && qs != [] && qs[0] == ps[0]
    requires After(qs, tail') == After(ps, tail)
    requires Lexes(ps, tail) && Lexes(qs[1..], tail')
    ensures Lexes(qs, tail')
  {
  }

  /** A literal that scans as its token is not empty and does not start with whitespace. */
  lemma LiteralStart(tok: Token)
    requires Scan(tok.literal, 0) == Scanned(tok, |tok.literal|)
    ensures tok.literal != [] && !IsWhitespace(tok.literal[0])
  {
    ScanConsumes(tok.literal, 0);
  }

  /** Skipping a stretch of whitespace first does not change where a run of it ends. */
  lemma {:induction false} SkipBlank(s: string, p: nat, w: string)
    requires p + |w| <= |s| && s[p..p + |w|] == w && Within(w, Whitespace)
    ensures RunEnd(s, p, Whitespace) == RunEnd(s, p + |w|, Whitespace)
    decreases |w|
  {
    if w != [] {
      assert s[p] == s[p..p + |w|][0];
      assert s[p + 1..p + |w|] == w[1..];
      SkipBlank(s, p + 1, w[1..]);
    }
  }

  /** What follows the first piece's text starts with the character `After` names. */
  lemma AfterFirst(ps: seq<Piece>, tail: string)
    requires Lexes(ps, tail) && ps != []
    ensures CharAt(Text(ps[1..]) + tail, 0) == After(ps, tail)
  {
    if |ps| > 1 {
      LiteralStart(ps[1].token);
      assert Text(ps[1..]) == ps[1].space + ps[1].token.literal + Text(ps[2..]);
    } else {
      assert Text(ps[1..]) + tail == tail;
    }
  }

  /** A literal that scans as `tok` on its own, reached by skipping whitespace `w` from `o`, scans as `tok` from `o`. */
  lemma ScanFromBlank(s: string, o: nat, w: string, t: string, tok: Token)
    requires o + |w| + |t| <= |s| && s[o + |w|..o + |w| + |t|] == t
    requires RunEnd(s, o, Whitespace) == RunEnd(s, o + |w|, Whitespace)
    requires Scan(t, 0) == Scanned(tok, |t|)
    requires Separates(tok.tokenType, CharAt(s, o + |w| + |t|))
    ensures Scan(s, o) == Scanned(tok, o + |w| + |t|)
  {
    ScanLocal(s, o + |w|, t, tok);
    ScanSameStart(s, o, o + |w|);
  }

  /** Blank space and then a literal that scans as `tok` on its own scan as `tok` inside any input. */
  lemma PieceScan(s: string, o: nat, w: string, t: string, tok: Token)
    requires o + |w| + |t| <= |s| && s[o..o + |w|] == w && s[o + |w|..o + |w| + |t|] == t
    requires Within(w, Whitespace) && Scan(t, 0) == Scanned(tok, |t|)
    requires Separates(tok.tokenType, CharAt(s, o + |w| + |t|))
    ensures Scan(s, o) == Scanned(tok, o + |w| + |t|)
  {
    SkipBlank(s, o, w);
    ScanFromBlank(s, o, w, t, tok);
  }

  /** The text around a piece, grouped three ways. */
  lemma Regroup(pre: string, w: string, t: string, x: string, tail: string)
    ensures pre + (w + t + x) + tail == pre + w + t + x + tail == pre + w + t + (x + tail)
  {
  }

  /** Where the parts of `s == pre + w + t + rest` sit. */
  lemma Parts(s: string, pre: string, w: string, t: string, rest: string)
    requires s == pre + w + t + rest
    ensures var p := |pre| + |w|;
      && s[|pre|..p] == w && s[p..p + |t|] == t && CharAt(s, p + |t|) == CharAt(rest, 0)
  {
    var p := |pre| + |w|;
    assert s[|pre|..p] == w;
    assert s[p..p + |t|] == t;
    assert s[p + |t|..] == rest;
  }

  /** The first call of `next_token` returns the first piece's token and stops right after it. */
  lemma FirstPiece(pre: string, ps: seq<Piece>, tail: string)
    requires Lexes(ps, tail) && ps != []
    ensures Scan(pre + Text(ps) + tail, |pre|)
      == Scanned(ps[0].token, |pre| + |ps[0].space| + |ps[0].token.literal|)
  {
    var s := pre + Text(ps) + tail;
    var w, t, rest := ps[0].space, ps[0].token.literal, Text(ps[1..]) + tail;
    assert Text(ps) == w + t + Text(ps[1..]);
    Regroup(pre, w, t, Text(ps[1..]), tail);
    Parts(s, pre, w, t, rest);
    AfterFirst(ps, tail);
    PieceScan(s, |pre|, w, t, ps[0].token);
  }

  /** The pieces after `pre` lex, one call of `next_token` each, as their tokens. */
  lemma {:induction false} Relex(pre: string, ps: seq<Piece>, tail: string)
    requires Lexes(ps, tail)
    ensures var s := pre + Text(ps) + tail;
      && PosAfter(s, |pre|, |ps|) == |pre| + |Text(ps)|
      && forall k :: 0 <= k < |ps| ==> TokenAt(s, |pre|, k) == TokensOf(ps)[k]
    decreases |ps|
  {
    if ps != [] {
      var w, t := ps[0].space, ps[0].token.literal;
      var pre' := pre + w + t;
      var s := pre' + Text(ps[1..]) + tail;
      assert pre + Text(ps) + tail == s && |Text(ps)| == |w| + |t| + |Text(ps[1..])| by {
        assert Text(ps) == w + t + Text(ps[1..]);
        Regroup(pre, w, t, Text(ps[1..]), tail);
      }
      assert Scan(s, |pre|) == Scanned(ps[0].token, |pre'|) by {
        FirstPiece(pre, ps, tail);
      }
      Relex(pre', ps[1..], tail);
      StepThenRest(s, |pre|, |pre'|, ps[0].token, TokensOf(ps[1..]));
      assert TokensOf(ps) == [ps[0].token] + TokensOf(ps[1..]);
    }
  }

  /** The calls after the first return the tokens of the calls from where it stopped. */
  lemma LaterTokens(s: string, o: nat, o': nat, ts: seq<Token>)
    requires Scan(s, o).next == o'
    requires forall k :: 0 <= k < |ts| ==> TokenAt(s, o', k) == ts[k]
    ensures forall k :: 1 <= k <= |ts| ==> TokenAt(s, o, k) == ts[k - 1]
  {
    forall k | 1 <= k <= |ts|
      ensures TokenAt(s, o, k) == ts[k - 1]
    {
      PosAfterShift(s, o, k);
    }
  }

  /** One step of `Relex`: the first call returns `t`, the later ones the calls from where it stopped. */
  lemma StepThenRest(s: string, o: nat, o': nat, t: Token, ts: seq<Token>)
    requires Scan(s, o) == Scanned(t, o')
    requires forall k :: 0 <= k < |ts| ==> TokenAt(s, o', k) == ts[k]
    ensures PosAfter(s, o, |ts| + 1) == PosAfter(s, o', |ts|)
    ensures forall k :: 0 <= k <= |ts| ==> TokenAt(s, o, k) == ([t] + ts)[k]
  {
    PosAfterShift(s, o, |ts| + 1);
    LaterTokens(s, o, o', ts);
  }

  /** After the pieces, a blank tail lexes as `EOF` forever. */
  lemma RelexEnd(pre: string, ps: seq<Piece>, tail: string)
    requires Lexes(ps, tail) && Within(tail, Whitespace)
    ensures forall m: nat :: |ps| <= m ==> TokenAt(pre + Text(ps) + tail, |pre|, m) == Token(Eof, "")
  {
    var s := pre + Text(ps) + tail;
    var n := |pre| + |Text(ps)|;
    Relex(pre, ps, tail);
    assert s[n..] == tail;
    forall j | n <= j < |s|
      ensures IsWhitespace(s[j])
    {
      WithinAt(tail, Whitespace, j - n);
      assert s[n..][j - n] == s[j];
    }
    forall m: nat | |ps| <= m
      ensures TokenAt(s, |pre|, m) == Token(Eof, "")
    {
      EofForever(s, |pre|, |ps|, m);
    }
  }

  /**
    Every piece's whitespace is blank, its literal is one the lexer spells
    for its token, and the character after it does not extend it.
   */
  predicate Spelled(ps: seq<Piece>, tail: string)
  {
    |ps| > 0 ==>
      && Within(ps[0].space, Whitespace)
      && Spells(ps[0].token)
      && Separates(ps[0].token.tokenType, After(ps, tail))
      && Spelled(ps[1..], tail)
  }

  /** A piece that is spelled out, put in front of pieces that are, gives pieces that are. */
  lemma SpelledCons(p: Piece, ps: seq<Piece>, tail: string)
    requires Within(p.space, Whitespace) && Spells(p.token)
    requires Separates(p.token.tokenType, if ps == [] then CharAt(tail, 0) else Lead(ps[0]))
    requires Spelled(ps, tail)
    ensures Spelled([p] + ps, tail)
  {
    assert ([p] + ps)[1..] == ps;
  }

  /** Two lists of spelled-out pieces are one, when the first is followed by the second's lead. */
  lemma {:induction false} SpelledAppend(a: seq<Piece>, b: seq<Piece>, tail: string)
    requires b != [] && Spelled(a, [Lead(b[0])]) && Spelled(b, tail)
    ensures Spelled(a + b, tail)
  {
    if a == [] {
      assert a + b == b;
    } else {
      if |a| > 1 {
        SpelledAppend(a[1..], b, tail);
      }
      AppendShape(a, b, tail);
      SpelledFront(a, [Lead(b[0])], a + b, tail);
    }
  }

  /** A list is spelled out when its first piece is so in another list with the same next character. */
  lemma SpelledFront(ps: seq<Piece>, tail: string, qs: seq<Piece>, tail': string)
    requires ps != [] && qs != [] && qs[0] == ps[0]
    requires After(qs, tail') == After(ps, tail)
    requires Spelled(ps, tail) && Spelled(qs[1..], tail')
    ensures Spelled(qs, tail')
  {
  }

  /** Pieces that are spelled out lex. */
  lemma {:induction false} SpelledLexes(ps: seq<Piece>, tail: string)
    requires Spelled(ps, tail)
    ensures Lexes(ps, tail)
    decreases |ps|
  {
    if ps != [] {
      SpelledLexes(ps[1..], tail);
      LexesCons(ps[0], ps[1..], tail);
      assert [ps[0]] + ps[1..] == ps;
    }
  }

  /**
    The lexer's calls on the text of spelled-out pieces followed by blank
    space return the pieces' tokens, one per call, and then `EOF` forever.
   */
  lemma SpelledTokens(ps: seq<Piece>, tail: string)
    requires Spelled(ps, tail) && Within(tail, Whitespace)
    ensures forall k :: 0 <= k < |ps| ==> TokenAt(Text(ps) + tail, 0, k) == TokensOf(ps)[k]
    ensures forall m: nat :: |ps| <= m ==> TokenAt(Text(ps) + tail, 0, m) == Token(Eof, "")
  {
    var s := Text(ps) + tail;
    assert "" + Text(ps) + tail == s;
    SpelledLexes(ps, tail);
    Relex("", ps, tail);
    RelexEnd("", ps, tail);
    assert forall k :: 0 <= k < |ps| ==> TokenAt(s, 0, k) == TokensOf(ps)[k];
  }
}

/** Hand-written SQL scanners (sql_engine.go): the pseudocolumn rewriter and the splitter of
    top-level lists. A query is a sequence of bytes, here characters. */
module Scanners {
  import opened Text
  import opened Partitioning
  import HiddenColumns

  // ---- Tokens -----------------------------------------------------------------------------

  datatype Kind = LineComment | BlockComment | Literal | Quoted | Word | Other

  datatype Token = Token(kind: Kind, text: string)

  predicate IsWordChar(c: char) {
    c == '_' || 'a' <= c <= 'z' || 'A' <= c <= 'Z' || '0' <= c <= '9'
  }

  function KindOf(s: string): Kind
    requires s != ""
  {
    if |s| > 1 && s[0] == '-' && s[1] == '-' then LineComment
    else if |s| > 1 && s[0] == '/' && s[1] == '*' then BlockComment
    else if s[0] == '\'' || s[0] == '"' then Literal
    else if s[0] == '`' then Quoted
    else if IsWordChar(s[0]) then Word
    else Other
  }

  /** The first "*" followed by "/" from k on, or |s|. */
  function BlockEnd(s: string, k: nat): (e: nat)
    requires k <= |s|
    ensures k <= e <= |s|
    decreases |s| - k
  {
    if k + 1 >= |s| then |s| else if s[k] == '*' && s[k + 1] == '/' then k + 2 else BlockEnd(s, k + 1)
  }

  /** Past the closing quote of a literal scanned up to k; a doubled quote does not close it. */
  function LiteralEnd(s: string, quote: char, k: nat): (e: nat)
    requires k <= |s|
    ensures k <= e <= |s|
    decreases |s| - k
  {
    if k == |s| then |s|
    else if s[k] != quote then LiteralEnd(s, quote, k + 1)
    else if k + 1 < |s| && s[k + 1] == quote then LiteralEnd(s, quote, k + 2)
    else k + 1
  }

  function WordEnd(s: string, k: nat): (e: nat)
    requires k <= |s|
    ensures k <= e <= |s|
    decreases |s| - k
  {
    if k < |s| && IsWordChar(s[k]) then WordEnd(s, k + 1) else k
  }

  /** Past the first c from k on, or |s|. */
  function Past(s: string, c: char, k: nat): (e: nat)
    requires k <= |s|
    ensures k <= e <= |s|
    decreases |s| - k
  {
    if k == |s| then |s| else if s[k] == c then k + 1 else Past(s, c, k + 1)
  }

  /** The length of the token s starts with. */
  function Len(s: string): (n: nat)
    requires s != ""
    ensures 0 < n <= |s|
  {
    match KindOf(s)
    case LineComment => Past(s, '\n', 2)
    case BlockComment => BlockEnd(s, 2)
    case Literal => LiteralEnd(s, s[0], 1)
    case Quoted => Past(s, '`', 1)
    case Word => WordEnd(s, 1)
    case Other => 1
  }

  function Lex(s: string): seq<Token> {
    if s == "" then [] else [Token(KindOf(s), s[..Len(s)])] + Lex(s[Len(s)..])
  }

  function TextOf(tokens: seq<Token>): string {
    if tokens == [] then "" else tokens[0].text + TextOf(tokens[1..])
  }

  /** The tokens of a query make up the query. */
  lemma {:induction false} LexLosesNothing(s: string)
    ensures TextOf(Lex(s)) == s
    decreases |s|
  {
    if s != "" {
      LexLosesNothing(s[Len(s)..]);
      assert Lex(s)[1..] == Lex(s[Len(s)..]);
      assert s == s[..Len(s)] + s[Len(s)..];
    }
  }

  // ---- The rewriter ------------------------------------------------------------------------

  /** The internal name of a pseudocolumn, any other name itself. */
  function Internal(name: string): string {
    if EqualFold(name, PARTITION_TIME) then HiddenColumns.TIME_COLUMN
    else if EqualFold(name, PARTITION_DATE) then HiddenColumns.DATE_COLUMN
    else name
  }

  /** The name between backticks; a token without a closing backtick has none. */
  function Unticked(text: string): string {
    if |text| >= 2 && text[0] == '`' && text[|text| - 1] == '`' then text[1..|text| - 1] else ""
  }

  function RewriteToken(t: Token): Token {
    match t.kind
    case Word => t.(text := Internal(t.text))
    case Quoted => if Internal(Unticked(t.text)) == Unticked(t.text) then t
        else t.(text := "`" + Internal(Unticked(t.text)) + "`")
    case _ => t
  }

  function RewriteAll(tokens: seq<Token>): seq<Token> {
    seq(|tokens|, i requires 0 <= i < |tokens| => RewriteToken(tokens[i]))
  }

  function Rewrite(s: string): string {
    if s == "" then "" else RewriteToken(Token(KindOf(s), s[..Len(s)])).text + Rewrite(s[Len(s)..])
  }

  // ---- What the output lexes to -----------------------------------------------------------

  /** A name as it comes out of the rewriter. */
  lemma {:induction false} InternalNames(name: string)
    ensures Internal(Internal(name)) == Internal(name)
    ensures Internal(name) != name ==>
              && |name| > 0 && name[0] == '_' && Internal(name)[..1] == "_"
              && forall i :: 0 <= i < |Internal(name)| ==> IsWordChar(Internal(name)[i])
  {
    var l := ToLower(name);
    assert |l| == |name|;
    assert |HiddenColumns.TIME_COLUMN| == 23 && |HiddenColumns.DATE_COLUMN| == 23;
    assert |PARTITION_TIME| == 14 && |PARTITION_DATE| == 14;
    assert forall n: string :: |n| == 23 ==> |ToLower(n)| == 23;
    if Internal(name) != name {
      assert l[0] == '_' == LowerChar(name[0]);
    }
  }

  lemma {:induction false} PastStable(s: string, c: char, k: nat, r: string)
    requires k <= |s| && Past(s, c, k) < |s|
    ensures Past(s[..Past(s, c, k)] + r, c, k) == Past(s, c, k)
    decreases |s| - k
  {
    if s[k] != c { PastStable(s, c, k + 1, r); }
  }

  lemma {:induction false} BlockStable(s: string, k: nat, r: string)
    requires k <= |s| && BlockEnd(s, k) < |s|
    ensures BlockEnd(s[..BlockEnd(s, k)] + r, k) == BlockEnd(s, k)
    decreases |s| - k
  {
    if !(s[k] == '*' && s[k + 1] == '/') {
      BlockStable(s, k + 1, r);
      BlockEndIsPast(s, k + 1);
    }
  }

  /** A comment that ends before the end of the query takes two more characters to do so. */
  lemma {:induction false} BlockEndIsPast(s: string, k: nat)
    requires k <= |s| && BlockEnd(s, k) < |s|
    ensures k + 2 <= BlockEnd(s, k)
    decreases |s| - k
  {
    if !(s[k] == '*' && s[k + 1] == '/') { BlockEndIsPast(s, k + 1); }
  }

  lemma {:induction false} LiteralStable(s: string, q: char, k: nat, r: string)
    requires k <= |s| && LiteralEnd(s, q, k) < |s| && (r == "" || r[0] == s[LiteralEnd(s, q, k)])
    ensures LiteralEnd(s[..LiteralEnd(s, q, k)] + r, q, k) == LiteralEnd(s, q, k)
    decreases |s| - k
  {
    var e := LiteralEnd(s, q, k);
    var t := s[..e] + r;
    if s[k] != q {
      LiteralStable(s, q, k + 1, r);
    } else if k + 1 < |s| && s[k + 1] == q {
      LiteralStable(s, q, k + 2, r);
    } else {
      assert e == k + 1 && t[k] == q;
      assert k + 1 < |t| ==> t[k + 1] == r[0] == s[k + 1];
    }
  }

  lemma {:induction false} WordRun(s: string, k: nat)
    requires k <= |s|
    ensures forall i :: k <= i < WordEnd(s, k) ==> IsWordChar(s[i])
    ensures WordEnd(s, k) < |s| ==> !IsWordChar(s[WordEnd(s, k)])
    decreases |s| - k
  {
    if k < |s| && IsWordChar(s[k]) { WordRun(s, k + 1); }
  }

  lemma {:induction false} WordEndIs(s: string, k: nat, e: nat)
    requires k <= e <= |s| && (forall i :: k <= i < e ==> IsWordChar(s[i])) && (e < |s| ==> !IsWordChar(s[e]))
    ensures WordEnd(s, k) == e
    decreases e - k
  {
    if k < e { WordEndIs(s, k + 1, e); }
  }

  lemma {:induction false} PastIs(s: string, c: char, k: nat, e: nat)
    requires k < e <= |s| && s[e - 1] == c && forall i :: k <= i < e - 1 ==> s[i] != c
    ensures Past(s, c, k) == e
    decreases e - k
  {
    if k < e - 1 { PastIs(s, c, k + 1, e); }
  }

  /** Rewriting keeps the first character of what follows a token, and nothing stays nothing. */
  lemma {:induction false} FirstCharStays(s: string)
    ensures s == "" <==> Rewrite(s) == ""
    ensures s != "" ==> Rewrite(s)[0] == s[0]
  {
    if s != "" {
      var t := s[..Len(s)];
      InternalNames(t);
      InternalNames(Unticked(t));
    }
  }

  /** What may follow a token that was rewritten: as it was, or nothing where nothing was. */
  predicate Follows(s: string, r: string)
    requires s != ""
  {
    var rest := s[Len(s)..];
    (rest == "" <==> r == "") && (rest != "" ==> r[0] == rest[0])
  }

  /** The tokens that are copied keep their kind and length in front of such a follower. */
  lemma {:induction false} CopiedTokenStays(s: string, r: string)
    requires s != "" && Follows(s, r)
    ensures var u := s[..Len(s)] + r; u != "" && KindOf(u) == KindOf(s) && Len(u) == Len(s)
  {
    var n := Len(s);
    var u := s[..n] + r;
    if n == |s| {
      assert s[n..] == "" && u == s;
    } else {
      assert u[0] == s[0];
      assert |u| > 1 && (n > 1 ==> u[1] == s[1]) && (n == 1 ==> u[1] == r[0] == s[1]);
      match KindOf(s) {
        case LineComment => PastStable(s, '\n', 2, r);
        case BlockComment => BlockStable(s, 2, r);
        case Literal => LiteralStable(s, s[0], 1, r);
        case Quoted => PastStable(s, '`', 1, r);
        case Word =>
          WordRun(s, 1);
          WordEndIs(u, 1, n);
        case Other =>
      }
    }
  }

  lemma {:induction false} RewrittenWordStays(name: string, r: string)
    requires name != "" && (forall i :: 0 <= i < |name| ==> IsWordChar(name[i])) && (r != "" ==> !IsWordChar(r[0]))
    ensures KindOf(name + r) == Word && Len(name + r) == |name|
  {
    assert (name + r)[0] == name[0];
    WordEndIs(name + r, 1, |name|);
  }

  lemma {:induction false} RewrittenQuotedStays(name: string, r: string)
    requires forall i :: 0 <= i < |name| ==> IsWordChar(name[i])
    ensures KindOf("`" + name + "`" + r) == Quoted && Len("`" + name + "`" + r) == |name| + 2
  {
    var u := "`" + name + "`" + r;
    assert forall i :: 1 <= i < |name| + 1 ==> u[i] == name[i - 1];
    PastIs(u, '`', 1, |name| + 2);
  }

  /** A rewritten token, in front of a rewritten follower, lexes as itself. */
  lemma {:induction false} RewrittenTokenStays(s: string, r: string)
    requires s != "" && Follows(s, r)
    ensures var t := RewriteToken(Token(KindOf(s), s[..Len(s)]));
            var u := t.text + r;
            u != "" && KindOf(u) == t.kind && Len(u) == |t.text| && u[..|t.text|] == t.text && u[|t.text|..] == r
  {
    var n := Len(s);
    var t := Token(KindOf(s), s[..n]);
    CopiedTokenStays(s, r);
    if RewriteToken(t) != t {
      if t.kind.Word? {
        InternalNames(t.text);
        WordRun(s, 1);
        RewrittenWordStays(Internal(t.text), r);
      } else {
        InternalNames(Unticked(t.text));
        RewrittenQuotedStays(Internal(Unticked(t.text)), r);
      }
    }
  }

  /** The output has the tokens of the input, pseudocolumns replaced and nothing else. */
  lemma {:induction false} RewriteIsTokenwise(s: string)
    ensures Lex(Rewrite(s)) == RewriteAll(Lex(s))
    decreases |s|
  {
    if s != "" {
      var n := Len(s);
      var rest := s[n..];
      RewriteIsTokenwise(rest);
      FirstCharStays(rest);
      RewrittenTokenStays(s, Rewrite(rest));
      assert Lex(s) == [Token(KindOf(s), s[..n])] + Lex(rest);
    }
  }

  lemma {:induction false} RewriteTokenTwice(t: Token)
    ensures RewriteToken(RewriteToken(t)) == RewriteToken(t)
  {
    InternalNames(t.text);
    var name := Internal(Unticked(t.text));
    InternalNames(Unticked(t.text));
    if t.kind.Quoted? && RewriteToken(t) != t {
      assert Unticked("`" + name + "`") == name;
    }
  }

  lemma {:induction false} RewriteIsText(s: string)
    ensures Rewrite(s) == TextOf(RewriteAll(Lex(s)))
  {
    RewriteIsTokenwise(s);
    LexLosesNothing(Rewrite(s));
  }

  /** Rewriting twice is rewriting once. */
  lemma {:induction false} RewriteIsIdempotent(s: string)
    ensures Rewrite(Rewrite(s)) == Rewrite(s)
  {
    RewriteIsTokenwise(s);
    RewriteIsText(Rewrite(s));
    var tokens := RewriteAll(Lex(s));
    forall i | 0 <= i < |tokens| ensures RewriteToken(tokens[i]) == tokens[i] {
      RewriteTokenTwice(Lex(s)[i]);
    }
    assert RewriteAll(tokens) == tokens;
    RewriteIsText(s);
  }

  // ---- Copying ---------------------------------------------------------------------------------

  /** i is where a token starts, or the end. */
  predicate Boundary(s: string, i: nat)
    decreases |s|
  {
    i == 0 || (s != "" && Len(s) <= i && Boundary(s[Len(s)..], i - Len(s)))
  }

  /** A token is the same token when nothing follows it. */
  lemma {:induction false} TokenAlone(s: string)
    requires s != ""
    ensures var t := s[..Len(s)];
            && t != "" && Len(t) == |t|
            && RewriteToken(Token(KindOf(t), t)).text == RewriteToken(Token(KindOf(s), t)).text
  {
    var n := Len(s);
    var t := s[..n];
    assert t + "" == t;
    if n < |s| {
      match KindOf(s) {
        case LineComment => PastStable(s, '\n', 2, "");
        case BlockComment =>
          BlockEndIsPast(s, 2);
          BlockStable(s, 2, "");
        case Literal => LiteralStable(s, s[0], 1, "");
        case Quoted => PastStable(s, '`', 1, "");
        case Word =>
          WordRun(s, 1);
          WordEndIs(t, 1, n);
        case Other =>
      }
    } else {
      assert t == s;
    }
  }

  lemma {:induction false} Parts<T>(t: seq<T>, w: seq<T>)
    ensures (t + w)[..|t|] == t && (t + w)[|t|..] == w
  {
  }

  /** The text a leading token t of t + w is rewritten to. */
  function HeadText(t: string, w: string): string
    requires t + w != ""
  {
    RewriteToken(Token(KindOf(t + w), t)).text
  }

  lemma {:induction false} RewriteHead(t: string, w: string)
    requires t + w != "" && Len(t + w) == |t|
    ensures Rewrite(t + w) == HeadText(t, w) + Rewrite(w)
  {
    Parts(t, w);
  }

  /** A leading token stays when what follows it is cut off later, or right behind it. */
  lemma {:induction false} TokenKept(t: string, w: string, b: string)
    requires t != "" && Len(t + w) == |t| && (b == "" || (w != "" && b[0] == w[0]))
    ensures Len(t + b) == |t| && HeadText(t, b) == HeadText(t, w)
  {
    var s := t + w;
    Parts(t, w);
    if b == "" {
      TokenAlone(s);
      assert t + "" == t;
    } else {
      CopiedTokenStays(s, b);
    }
  }

  /** Rewriting goes token by token: it can be cut at every token boundary. */
  lemma {:induction false} RewriteSplits(a: string, u: string)
    requires Boundary(a + u, |a|)
    ensures Rewrite(a + u) == Rewrite(a) + Rewrite(u)
    decreases |a|
  {
    if a == "" {
      assert a + u == u;
    } else {
      var n := Len(a + u);
      var t, b := a[..n], a[n..];
      assert a == t + b && a + u == t + (b + u);
      Parts(t, b + u);
      RewriteSplits(b, u);
      RewriteHead(t, b + u);
      TokenKept(t, b + u, b);
      RewriteHead(t, b);
      Glue(Rewrite(a + u), HeadText(t, b), Rewrite(b + u), Rewrite(b), Rewrite(u));
    }
  }

  lemma {:induction false} Glue(whole: string, a: string, rest: string, b: string, c: string)
    requires whole == a + rest && rest == b + c
    ensures whole == a + b + c
  {
  }

  predicate IsCopied(k: Kind) {
    k.LineComment? || k.BlockComment? || k.Literal?
  }

  /** A comment or literal t, wherever it stands in the query, is copied byte for byte, and what
      stands around it is rewritten as if it were alone. */
  lemma {:induction false} LiteralsAndCommentsAreCopied(a: string, t: string, r: string)
    requires Boundary(a + (t + r), |a|) && t + r != "" && Len(t + r) == |t| && IsCopied(KindOf(t + r))
    ensures Rewrite(a + (t + r)) == Rewrite(a) + t + Rewrite(r)
  {
    RewriteSplits(a, t + r);
    RewriteHead(t, r);
    Glue(Rewrite(a + (t + r)), Rewrite(a), Rewrite(t + r), t, Rewrite(r));
  }

  // ---- The rewriting loop --------------------------------------------------------------------

  lemma {:induction false} PastShift(s: string, c: char, i: nat, k: nat)
    requires i + k <= |s|
    ensures Past(s[i..], c, k) + i == Past(s, c, i + k)
    decreases |s| - i - k
  {
    if i + k < |s| && s[i + k] != c { PastShift(s, c, i, k + 1); }
  }

  lemma {:induction false} BlockShift(s: string, i: nat, k: nat)
    requires i + k <= |s|
    ensures BlockEnd(s[i..], k) + i == BlockEnd(s, i + k)
    decreases |s| - i - k
  {
    if i + k + 1 < |s| && !(s[i + k] == '*' && s[i + k + 1] == '/') { BlockShift(s, i, k + 1); }
  }

  lemma {:induction false} LiteralShift(s: string, q: char, i: nat, k: nat)
    requires i + k <= |s|
    ensures LiteralEnd(s[i..], q, k) + i == LiteralEnd(s, q, i + k)
    decreases |s| - i - k
  {
    if i + k < |s| {
      if s[i + k] != q {
        LiteralShift(s, q, i, k + 1);
      } else if i + k + 1 < |s| && s[i + k + 1] == q {
        LiteralShift(s, q, i, k + 2);
      }
    }
  }

  lemma {:induction false} WordShift(s: string, i: nat, k: nat)
    requires i + k <= |s|
    ensures WordEnd(s[i..], k) + i == WordEnd(s, i + k)
    decreases |s| - i - k
  {
    if i + k < |s| && IsWordChar(s[i + k]) { WordShift(s, i, k + 1); }
  }

  /** Scans a literal that opens at i. */
  method ScanLiteral(s: string, i: nat) returns (e: nat)
    requires i < |s|
    ensures e == LiteralEnd(s, s[i], i + 1)
  {
    var quote := s[i];
    e := i + 1;
    while e < |s|
      invariant i < e <= |s|
      invariant LiteralEnd(s, quote, i + 1) == LiteralEnd(s, quote, e)
      decreases |s| - e
    {
      if s[e] == quote {
        if e + 1 < |s| && s[e + 1] == quote {
          e := e + 2;
          continue;
        }
        return e + 1;
      }
      e := e + 1;
    }
  }

  method ScanWord(s: string, i: nat) returns (e: nat)
    requires i < |s| && IsWordChar(s[i])
    ensures e == WordEnd(s, i + 1)
  {
    e := i;
    while e < |s| && IsWordChar(s[e])
      invariant i <= e <= |s|
      invariant WordEnd(s, i) == WordEnd(s, e)
    {
      e := e + 1;
    }
  }

  /** Searches for c from i on. */
  method ScanPast(s: string, c: char, i: nat) returns (e: nat)
    requires i <= |s|
    ensures e == Past(s, c, i)
  {
    e := i;
    while e < |s|
      invariant i <= e <= |s|
      invariant Past(s, c, i) == Past(s, c, e)
    {
      if s[e] == c {
        return e + 1;
      }
      e := e + 1;
    }
  }

  /** Searches for the end of a block comment from i on. */
  method ScanBlock(s: string, i: nat) returns (e: nat)
    requires i <= |s|
    ensures e == BlockEnd(s, i)
  {
    e := i;
    while e + 1 < |s|
      invariant i <= e <= |s|
      invariant BlockEnd(s, i) == BlockEnd(s, e)
    {
      if s[e] == '*' && s[e + 1] == '/' {
        return e + 2;
      }
      e := e + 1;
    }
    return |s|;
  }

  /** The end of the token at i, branch by branch. */
  method ScanToken(s: string, i: nat) returns (kind: Kind, e: nat)
    requires i < |s|
    ensures kind == KindOf(s[i..]) && e == i + Len(s[i..])
  {
    if i + 1 < |s| && s[i] == '-' && s[i + 1] == '-' {
      PastShift(s, '\n', i, 2);
      e := ScanPast(s, '\n', i + 2);
      return LineComment, e;
    }
    if i + 1 < |s| && s[i] == '/' && s[i + 1] == '*' {
      BlockShift(s, i, 2);
      e := ScanBlock(s, i + 2);
      return BlockComment, e;
    }
    if s[i] == '\'' || s[i] == '"' {
      LiteralShift(s, s[i], i, 1);
      e := ScanLiteral(s, i);
      return Literal, e;
    }
    if s[i] == '`' {
      PastShift(s, '`', i, 1);
      e := ScanPast(s, '`', i + 1);
      return Quoted, e;
    }
    if IsWordChar(s[i]) {
      WordShift(s, i, 1);
      e := ScanWord(s, i);
      return Word, e;
    }
    return Other, i + 1;
  }

  method RewriteIngestionPseudocolumns(s: string) returns (out: string)
    ensures out == Rewrite(s)
  {
    out := "";
    var i := 0;
    while i < |s|
      invariant i <= |s|
      invariant out + Rewrite(s[i..]) == Rewrite(s)
    {
      var kind, e := ScanToken(s, i);
      assert s[i..][..e - i] == s[i..e] && s[i..][e - i..] == s[e..];
      out := out + RewriteToken(Token(kind, s[i..e])).text;
      i := e;
    }
    assert s[i..] == "";
  }

  // ---- Splitting a list at its top-level commas -------------------------------------------------

  predicate IsQuote(c: char) {
    c == '\'' || c == '"' || c == '`'
  }

  predicate Cuts(s: string, i: nat, depth: nat)
    requires i < |s|
  {
    s[i] == ',' && depth == 0
  }

  /** Where the scan goes on after the character at i. */
  function Onward(s: string, i: nat): (e: nat)
    requires i < |s|
    ensures i < e <= |s|
  {
    if IsQuote(s[i]) then LiteralEnd(s, s[i], i + 1) else i + 1
  }

  /** The open parentheses after c. */
  function Depth(c: char, depth: nat): nat {
    if c == '(' then depth + 1 else if c == ')' && depth > 0 then depth - 1 else depth
  }

  /** The first comma from i on outside quotes and parentheses, depth parentheses being open; or |s|. */
  function NextComma(s: string, i: nat, depth: nat): (c: nat)
    requires i <= |s|
    ensures i <= c <= |s| && (c < |s| ==> s[c] == ',')
    decreases |s| - i
  {
    if i == |s| then |s| else if Cuts(s, i, depth) then i else NextComma(s, Onward(s, i), Depth(s[i], depth))
  }

  function SplitFrom(s: string, start: nat): (pieces: seq<string>)
    requires start <= |s|
    ensures pieces != []
    decreases |s| - start
  {
    var c := NextComma(s, start, 0);
    if c == |s| then [s[start..]] else [s[start..c]] + SplitFrom(s, c + 1)
  }

  function Join(pieces: seq<string>): string
    requires pieces != []
  {
    if |pieces| == 1 then pieces[0] else pieces[0] + "," + Join(pieces[1..])
  }

  lemma {:induction false} CutAtComma(s: string, pieces: seq<string>, start: nat, c: nat)
    requires start <= |s| && NextComma(s, start, 0) == c < |s|
    ensures pieces + SplitFrom(s, start) == (pieces + [s[start..c]]) + SplitFrom(s, c + 1)
  {
  }

  method SplitTopLevelList(s: string) returns (pieces: seq<string>)
    ensures pieces == SplitFrom(s, 0)
  {
    pieces := [];
    var start, depth, i := 0, 0, 0;
    while i < |s|
      invariant start <= i <= |s|
      invariant pieces + SplitFrom(s, start) == SplitFrom(s, 0)
      invariant NextComma(s, start, 0) == NextComma(s, i, depth)
    {
      var c := s[i];
      if c == '\'' || c == '"' || c == '`' {
        i := ScanLiteral(s, i);
        continue;
      } else if c == '(' {
        depth := depth + 1;
      } else if c == ')' {
        if depth > 0 {
          depth := depth - 1;
        }
      } else if c == ',' && depth == 0 {
        CutAtComma(s, pieces, start, i);
        pieces := pieces + [s[start..i]];
        start := i + 1;
      }
      i := i + 1;
    }
    pieces := pieces + [s[start..]];
  }

  /** Joining the pieces with commas gives the list back. */
  lemma {:induction false} JoinUndoesSplit(s: string, start: nat)
    requires start <= |s|
    ensures Join(SplitFrom(s, start)) == s[start..]
    decreases |s| - start
  {
    var c := NextComma(s, start, 0);
    if c < |s| {
      JoinUndoesSplit(s, c + 1);
      var rest := SplitFrom(s, c + 1);
      assert ([s[start..c]] + rest)[1..] == rest;
      assert s[start..] == s[start..c] + "," + s[c + 1..];
    }
  }

  lemma {:induction false} LiteralInSlice(s: string, a: nat, b: nat, q: char, k: nat)
    requires a + k <= b <= |s| && LiteralEnd(s, q, a + k) <= b
    ensures LiteralEnd(s[a..b], q, k) + a == LiteralEnd(s, q, a + k)
    decreases b - a - k
  {
    if a + k < b {
      if s[a + k] != q {
        LiteralInSlice(s, a, b, q, k + 1);
      } else if a + k + 1 < |s| && s[a + k + 1] == q {
        LiteralInSlice(s, a, b, q, k + 2);
      }
    }
  }

  lemma {:induction false} OnwardInSlice(s: string, a: nat, b: nat, i: nat)
    requires a + i < b <= |s| && Onward(s, a + i) <= b
    ensures Onward(s[a..b], i) + a == Onward(s, a + i)
  {
    if IsQuote(s[a + i]) { LiteralInSlice(s, a, b, s[a + i], i + 1); }
  }

  lemma {:induction false} NoCommaInSlice(s: string, a: nat, b: nat, i: nat, depth: nat)
    requires a + i <= b <= |s| && NextComma(s, a + i, depth) == b
    ensures NextComma(s[a..b], i, depth) == b - a
    decreases b - a - i
  {
    if a + i < b {
      var e, d := Onward(s, a + i), Depth(s[a + i], depth);
      assert NextComma(s, e, d) == b;
      OnwardInSlice(s, a, b, i);
      NoCommaInSlice(s, a, b, e - a, d);
    }
  }

  /** No piece can be split further: every top-level comma has been found. */
  lemma {:induction false} PiecesAreWhole(s: string, start: nat, k: nat)
    requires start <= |s| && k < |SplitFrom(s, start)|
    ensures SplitFrom(SplitFrom(s, start)[k], 0) == [SplitFrom(s, start)[k]]
    decreases |s| - start
  {
    var c := NextComma(s, start, 0);
    if k == 0 {
      var piece := SplitFrom(s, start)[0];
      assert piece == s[start..c];
      NoCommaInSlice(s, start, c, 0, 0);
      assert piece[0..] == piece;
    } else {
      PiecesAreWhole(s, c + 1, k - 1);
    }
  }
}

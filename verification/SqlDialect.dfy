/** Where GoogleSQL says a literal or a comment ends, and when the scanner agrees. */
module SqlDialect {
  import opened Text
  import opened Partitioning
  import opened Scanners
  import HiddenColumns

  // ---- The dialect ---------------------------------------------------------------------------

  /** Past the first quote from k on that no backslash escapes. */
  function EscapedEnd(s: string, quote: char, k: nat): (e: nat)
    requires k <= |s|
    ensures k <= e <= |s|
    decreases |s| - k
  {
    if k == |s| then |s|
    else if s[k] == '\\' then (if k + 2 <= |s| then EscapedEnd(s, quote, k + 2) else |s|)
    else if s[k] == quote then k + 1
    else EscapedEnd(s, quote, k + 1)
  }

  /** Past the first three quotes in a row from k on that no backslash escapes. */
  function TripleEnd(s: string, quote: char, k: nat): (e: nat)
    requires k <= |s|
    ensures k <= e <= |s|
    decreases |s| - k
  {
    if k + 3 > |s| then |s|
    else if s[k] == '\\' then TripleEnd(s, quote, k + 2)
    else if s[k] == quote && s[k + 1] == quote && s[k + 2] == quote then k + 3
    else TripleEnd(s, quote, k + 1)
  }

  predicate IsTriple(s: string) {
    |s| >= 3 && (s[0] == '\'' || s[0] == '"') && s[1] == s[0] && s[2] == s[0]
  }

  function DialectKind(s: string): Kind
    requires s != ""
  {
    if s[0] == '#' then LineComment else KindOf(s)
  }

  function DialectLen(s: string): (n: nat)
    requires s != ""
    ensures 0 < n <= |s|
  {
    if s[0] == '#' then Past(s, '\n', 1)
    else if IsTriple(s) then TripleEnd(s, s[0], 3)
    else if KindOf(s).Literal? || KindOf(s).Quoted? then EscapedEnd(s, s[0], 1)
    else Len(s)
  }

  /** The rewriting the scanner is meant to do: by the tokens of the dialect. */
  function DialectRewrite(s: string): string {
    if s == "" then ""
    else RewriteToken(Token(DialectKind(s), s[..DialectLen(s)])).text + DialectRewrite(s[DialectLen(s)..])
  }

  // ---- Where they agree ----------------------------------------------------------------------

  predicate IsQuoted(s: string)
    requires s != ""
  {
    KindOf(s).Literal? || KindOf(s).Quoted?
  }

  /** No token of the query is a hash comment, is triple-quoted or has an escaped quote. */
  predicate Plain(s: string) {
    s != "" ==>
      && s[0] != '#' && !IsTriple(s)
      && (IsQuoted(s) ==> EscapedEnd(s, s[0], 1) == Past(s, s[0], 1))
      && Plain(s[DialectLen(s)..])
  }

  /** The scanner goes on at a doubled quote, and ends at any other. */
  lemma {:induction false} LiteralByQuotes(s: string, q: char, k: nat)
    requires k <= |s|
    ensures var d := Past(s, q, k);
            LiteralEnd(s, q, k) == if d < |s| && s[d] == q then LiteralEnd(s, q, d + 1) else d
    decreases |s| - k
  {
    if k < |s| && s[k] != q { LiteralByQuotes(s, q, k + 1); }
  }

  lemma {:induction false} FirstLiteral(s: string, t: string, r: string)
    requires Plain(s) && s != "" && KindOf(s).Literal? && s == t + r && |t| == Past(s, s[0], 1)
    ensures DialectRewrite(s) == t + DialectRewrite(r) && Plain(r)
  {
    Parts(t, r);
  }

  /** A doubled quote: what is left of the scanner's literal begins a literal again. */
  lemma {:induction false} RestIsLiteral(t: string, u: string, q: char)
    requires u != "" && u[0] == q && (q == '\'' || q == '"')
    ensures KindOf(u).Literal?
    ensures LiteralEnd(t + u, q, |t| + 1) == |t| + LiteralEnd(u, q, 1)
  {
    Parts(t, u);
    LiteralShift(t + u, q, |t|, 1);
  }

  /** What the scanner takes for one literal t are one or more literals of the dialect in a row. */
  lemma {:induction false} LiteralIsCovered(s: string, t: string, r: string)
    requires Plain(s) && s != "" && KindOf(s).Literal? && s == t + r && |t| == LiteralEnd(s, s[0], 1)
    ensures DialectRewrite(s) == t + DialectRewrite(r) && Plain(r)
    decreases |s|
  {
    var q := s[0];
    var d := Past(s, q, 1);
    LiteralByQuotes(s, q, 1);
    if d < |s| && s[d] == q {
      var t1, t2 := t[..d], t[d..];
      var u := t2 + r;
      assert t == t1 + t2 && s == t1 + u;
      RestIsLiteral(t1, u, q);
      FirstLiteral(s, t1, u);
      LiteralIsCovered(u, t2, r);
      Glue(DialectRewrite(s), t1, DialectRewrite(u), t2, DialectRewrite(r));
    } else {
      FirstLiteral(s, t, r);
    }
  }

  /** On a plain query the scanner rewrites exactly what the dialect takes for pseudocolumns, and
      copies what the dialect takes for literals and comments. */
  lemma {:induction false} ScannerAgreesOnPlainQueries(s: string)
    requires Plain(s)
    ensures Rewrite(s) == DialectRewrite(s)
    decreases |s|
  {
    if s != "" {
      var n := Len(s);
      if KindOf(s).Literal? {
        assert s == s[..n] + s[n..];
        LiteralIsCovered(s, s[..n], s[n..]);
      } else {
        assert DialectLen(s) == n;
      }
      ScannerAgreesOnPlainQueries(s[n..]);
    }
  }

  // ---- Where they do not -----------------------------------------------------------------------

  predicate Clean(s: string) {
    '\'' !in s && '\\' !in s
  }

  predicate IsName(name: string) {
    EqualFold(name, PARTITION_TIME) && forall i :: 0 <= i < |name| ==> IsWordChar(name[i])
  }

  /** A clean stretch changes nothing for either scan. */
  lemma {:induction false} SkipClean(s: string, k: nat, m: nat)
    requires k <= m <= |s| && forall i :: k <= i < m ==> s[i] != '\''
    ensures LiteralEnd(s, '\'', k) == LiteralEnd(s, '\'', m)
    ensures (forall i :: k <= i < m ==> s[i] != '\\') ==> EscapedEnd(s, '\'', k) == EscapedEnd(s, '\'', m)
    decreases m - k
  {
    if k < m { SkipClean(s, k + 1, m); }
  }

  lemma {:induction false} NameIsRewritten(name: string, r: string)
    requires IsName(name) && (r != "" ==> !IsWordChar(r[0]))
    ensures name != "" && Rewrite(name + r) == HiddenColumns.TIME_COLUMN + Rewrite(r)
  {
    assert |ToLower(name)| == |ToLower(PARTITION_TIME)| == 14;
    RewrittenWordStays(name, r);
    assert (name + r)[..|name|] == name && (name + r)[|name|..] == r;
  }

  lemma {:induction false} LoneQuote()
    ensures Rewrite("'") == "'"
  {
    assert KindOf("'") == Literal && Len("'") == 1;
    assert "'"[..1] == "'" && "'"[1..] == "";
  }

  /** What both scans make of a literal with an escaped quote that a name follows. */
  lemma {:induction false} EscapedQuoteScans(s: string, a: string, name: string)
    requires Clean(a) && IsName(name) && s == "'" + a + "\\'" + name + "'"
    ensures KindOf(s) == Literal && !IsTriple(s)
    ensures EscapedEnd(s, '\'', 1) == |s|
    ensures LiteralEnd(s, '\'', 1) == |a| + 3
  {
    var m := |a| + 1;
    assert |ToLower(name)| == |ToLower(PARTITION_TIME)| == 14;
    assert s[m] == '\\' && s[m + 1] == '\'' && s[m + 2] == name[0] && s[|s| - 1] == '\'';
    assert IsWordChar(name[0]);
    assert forall i :: 1 <= i < m ==> s[i] == a[i - 1] && a[i - 1] in a;
    assert forall i :: m + 2 <= i < |s| - 1 ==> s[i] == name[i - m - 2] && IsWordChar(s[i]);
    SkipClean(s, 1, m);
    SkipClean(s, m, m + 1);
    SkipClean(s, m + 2, |s| - 1);
  }

  /** An escaped quote: the scanner takes it for the end of the literal, and rewrites a name that
      stands inside the literal. */
  lemma {:induction false} NameInsideLiteralIsRewritten(a: string, name: string)
    requires Clean(a) && IsName(name)
    ensures var s := "'" + a + "\\'" + name + "'";
            && DialectRewrite(s) == s
            && Rewrite(s) == "'" + a + "\\'" + HiddenColumns.TIME_COLUMN + "'"
  {
    var s := "'" + a + "\\'" + name + "'";
    var m := |a| + 3;
    EscapedQuoteScans(s, a, name);
    assert s[..|s|] == s && s[|s|..] == "";
    assert s[..m] == "'" + a + "\\'" && s[m..] == name + "'";
    NameIsRewritten(name, "'");
    LoneQuote();
  }

  /** What both scans make of a literal that ends in an escaped quote, before a name. */
  lemma {:induction false} EscapedEndScans(s: string, a: string, name: string)
    requires Clean(a) && IsName(name) && s == "'" + a + "\\''" + name
    ensures KindOf(s) == Literal && !IsTriple(s)
    ensures EscapedEnd(s, '\'', 1) == |a| + 4
    ensures LiteralEnd(s, '\'', 1) == |s|
  {
    var m := |a| + 1;
    assert s[m] == '\\' && s[m + 1] == '\'' && s[m + 2] == '\'';
    assert forall i :: 1 <= i < m ==> s[i] == a[i - 1] && a[i - 1] in a;
    assert forall i :: m + 3 <= i < |s| ==> s[i] == name[i - m - 3] && IsWordChar(s[i]);
    SkipClean(s, 1, m);
    SkipClean(s, m, m + 1);
    SkipClean(s, m + 3, |s|);
  }

  /** The same the other way round: a pseudocolumn after a literal that ends in an escaped quote
      is taken to be inside it. */
  lemma {:induction false} NameAfterLiteralIsSkipped(a: string, name: string)
    requires Clean(a) && IsName(name)
    ensures var s := "'" + a + "\\''" + name;
            && Rewrite(s) == s
            && DialectRewrite(s) == "'" + a + "\\''" + DialectRewrite(name)
  {
    var s := "'" + a + "\\''" + name;
    var m := |a| + 4;
    EscapedEndScans(s, a, name);
    assert s[..|s|] == s && s[|s|..] == "";
    assert s[..m] == "'" + a + "\\''" && s[m..] == name;
  }

  lemma {:induction false} SkipTriple(s: string, k: nat, m: nat)
    requires k <= m <= |s| - 3
    requires forall i :: k <= i < m ==> s[i] != '\\' && !(s[i] == '\'' == s[i + 1])
    ensures TripleEnd(s, '\'', k) == TripleEnd(s, '\'', m)
    decreases m - k
  {
    if k < m { SkipTriple(s, k + 1, m); }
  }

  lemma {:induction false} LoneTriple()
    ensures Rewrite("'''") == "'''"
  {
    assert LiteralEnd("'''", '\'', 1) == LiteralEnd("'''", '\'', 3) == 3;
    assert "'''"[..3] == "'''" && "'''"[3..] == "";
  }

  /** What both scans make of a triple-quoted literal with a quote that a name follows. */
  lemma {:induction false} TripleScans(s: string, a: string, name: string)
    requires Clean(a) && IsName(name) && s == "'''" + a + "'" + name + "'''"
    ensures KindOf(s) == Literal && IsTriple(s)
    ensures TripleEnd(s, '\'', 3) == |s|
    ensures LiteralEnd(s, '\'', 1) == |a| + 4
  {
    var m, e := |a| + 3, |s| - 3;
    assert |ToLower(name)| == |ToLower(PARTITION_TIME)| == 14;
    assert s[0] == s[1] == s[2] == s[m] == s[e] == s[e + 1] == s[e + 2] == '\'';
    assert forall i :: 3 <= i < m ==> s[i] == a[i - 3] && a[i - 3] in a;
    assert forall i :: m < i < e ==> s[i] == name[i - m - 1] && IsWordChar(s[i]);
    SkipTriple(s, 3, e);
    SkipClean(s, 3, m);
  }

  /** A quote inside triple quotes: the scanner takes it for the end of the literal. */
  lemma {:induction false} NameInTripleQuotesIsRewritten(a: string, name: string)
    requires Clean(a) && IsName(name)
    ensures var s := "'''" + a + "'" + name + "'''";
            && DialectRewrite(s) == s
            && Rewrite(s) == "'''" + a + "'" + HiddenColumns.TIME_COLUMN + "'''"
  {
    var s := "'''" + a + "'" + name + "'''";
    var m := |a| + 4;
    TripleScans(s, a, name);
    assert s[..|s|] == s && s[|s|..] == "";
    assert s[..m] == "'''" + a + "'" && s[m..] == name + "'''";
    NameIsRewritten(name, "'''");
    LoneTriple();
  }

  /** A hash comment is not one to the scanner. */
  lemma {:induction false} NameInHashCommentIsRewritten(name: string)
    requires IsName(name)
    ensures DialectRewrite("#" + name) == "#" + name
    ensures Rewrite("#" + name) == "#" + HiddenColumns.TIME_COLUMN
  {
    var s := "#" + name;
    assert KindOf(s) == Other && s[..1] == "#" && s[1..] == name;
    NoNewline(s, 1);
    assert s[..|s|] == s && s[|s|..] == "";
    NameIsRewritten(name, "");
    assert name + "" == name;
  }

  lemma {:induction false} NoNewline(s: string, k: nat)
    requires k <= |s| && forall i :: k <= i < |s| ==> IsWordChar(s[i])
    ensures Past(s, '\n', k) == |s|
    decreases |s| - k
  {
    if k < |s| { NoNewline(s, k + 1); }
  }
}

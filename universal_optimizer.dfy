/**
 * The query-clause filters of the universal optimizer: `posts_where` drops a
 * trailing `AND (...)` group, `posts_orderby` drops a trailing `ASC` and
 * normalises a trailing `DESC`, `posts_groupby` normalises the blanks around
 * commas. Each is one or two `preg_replace` calls over the clause text.
 */
module UniversalOptimizer {
  import opened SqlPatterns

  /** `preg_replace('/\s+AND\s+\([^)]*\)\s*$/', '', $where)`. */
  function OptimizePostsWhere(where: string): (r: string)
    // the result is a prefix of the clause
    ensures |r| <= |where| && r == where[..|r|]
    // the clause comes back unchanged exactly when no trailing AND-group matches anywhere
    ensures r == where <==> forall j :: 0 <= j < |where| ==> !AndGroupAt(where[j..])
    // otherwise what was cut off is the leftmost trailing AND-group
    ensures r != where ==>
      AndGroupAt(where[|r|..]) && forall j :: 0 <= j < |r| ==> !AndGroupAt(where[j..])
  {
    ReplaceAnchored(where, AndGroupAt, "")
  }

  /** `preg_replace('/\s+ASC\s*$/', '', …)` then `preg_replace('/\s+DESC\s*$/', ' DESC', …)`. */
  function OptimizePostsOrderby(orderby: string): (r: string)
    ensures |r| <= |orderby|
  {
    var noAsc := ReplaceAnchored(orderby, AscAt, "");
    NormaliseDesc(noAsc)
  }

  /** The second `preg_replace` of `optimize_posts_orderby`. */
  function NormaliseDesc(s: string): (r: string)
    ensures |r| <= |s|
  {
    ReplaceAnchored(s, DescAt, " DESC")
  }

  // `preg_replace('/\s+,\s*/', ', ', $groupby)`: scanning left to right, a
  // whitespace run followed by a comma and the whitespace after it becomes
  // `", "`, and the scan resumes after the replaced text.
  function OptimizePostsGroupby(groupby: string): (r: string)
    ensures |r| <= |groupby|
    decreases |groupby|
  {
    if groupby == [] then []
    else
      var a := LeadingWs(groupby);
      if 0 < a < |groupby| && groupby[a] == ',' then
        var rest := groupby[a + 1..];
        ", " + OptimizePostsGroupby(rest[LeadingWs(rest)..])
      else
        [groupby[0]] + OptimizePostsGroupby(groupby[1..])
  }

  // ---------------------------------------------------------------------------
  // WHERE

  /**
   * A single application removes only the last group: with a `)` right before
   * the final AND-group, no earlier position matches, so the text before it
   * (earlier groups included) is kept whole.
   */
  lemma EarlierGroupSurvives(p: string, g: string)
    requires |p| > 0 && p[|p| - 1] == ')'
    requires AndGroupAt(g)
    ensures OptimizePostsWhere(p + g) == p
  {
    var s := p + g;
    assert s[|p|..] == g;
    forall j | 0 <= j < |p| ensures !AndGroupAt(s[j..]) {
      NoGroupBeforeClose(s, j, |p| - 1, g);
    }
    assert s[..|p|] == p;
  }

  /** A match cannot start at or before a `)`: it would have to end at that `)`, yet text that is not blank follows it. */
  lemma NoGroupBeforeClose(s: string, j: nat, close: nat, g: string)
    requires j <= close < |s| && s[close] == ')'
    requires AndGroupAt(g) && s[close + 1..] == g
    ensures !AndGroupAt(s[j..])
  {
    var t := s[j..];
    GroupLayout(t);
    assert t[close - j] == ')';
    var na := LeadingWs(g);
    assert g[na] == 'A' by {
      assert g[na..na + 3] == "AND";
      assert g[na] == g[na..na + 3][0];
    }
    assert t[close - j + 1 + na] == s[close + 1 + na];
    assert s[close + 1 + na] == g[na];
  }

  /** Where the `)` of an AND-group match stands. */
  function GroupClose(t: string): (c: nat)
    requires AndGroupAt(t)
    ensures c < |t| && t[c] == ')'
  {
    var na := LeadingWs(t);
    var u := t[na + 3..];
    var nb := LeadingWs(u);
    var v := u[nb + 1..];
    assert v[FirstClose(v)] == t[na + 3 + nb + 1 + FirstClose(v)];
    na + 3 + nb + 1 + FirstClose(v)
  }

  /** An AND-group match holds no `)` before its closing one and only whitespace after it. */
  lemma GroupLayout(t: string)
    ensures AndGroupAt(t) ==>
      && (forall i :: 0 <= i < GroupClose(t) ==> t[i] != ')')
      && (forall i :: GroupClose(t) < i < |t| ==> IsWs(t[i]))
  {
    if AndGroupAt(t) {
      var na := LeadingWs(t);
      var u := t[na + 3..];
      var nb := LeadingWs(u);
      var v := u[nb + 1..];
      var c := FirstClose(v);
      forall i | 0 <= i < GroupClose(t) ensures t[i] != ')' {
        if na <= i < na + 3 {
          assert t[i] == t[na..na + 3][i - na];
        } else if na + 3 <= i < na + 3 + nb + 1 {
          assert t[i] == u[i - na - 3];
        } else if na + 3 + nb + 1 <= i {
          assert t[i] == v[i - na - 3 - nb - 1];
        }
      }
      forall i | GroupClose(t) < i < |t| ensures IsWs(t[i]) {
        assert t[i] == v[c + 1..][i - GroupClose(t) - 1];
      }
    }
  }

  /** A clause that is one word followed by an AND-group loses the group. */
  lemma WordThenGroup(p: string, g: string)
    requires forall i :: 0 <= i < |p| ==> !IsWs(p[i])
    requires AndGroupAt(g)
    ensures OptimizePostsWhere(p + g) == p
  {
    var s := p + g;
    assert s[|p|..] == g;
    forall j | 0 <= j < |p| ensures !AndGroupAt(s[j..]) {
      assert s[j..][0] == p[j];
    }
    assert s[..|p|] == p;
  }

  /**
   * Applied again, the filter may remove the next group: a word followed by two
   * groups, the first ending in its `)`, loses one group per call.
   */
  lemma SecondApplicationRemovesAnother(p: string, g1: string, g2: string)
    requires forall i :: 0 <= i < |p| ==> !IsWs(p[i])
    requires AndGroupAt(g1) && g1[|g1| - 1] == ')'
    requires AndGroupAt(g2)
    ensures OptimizePostsWhere(p + g1 + g2) == p + g1
    ensures OptimizePostsWhere(OptimizePostsWhere(p + g1 + g2)) == p
  {
    EarlierGroupSurvives(p + g1, g2);
    WordThenGroup(p, g1);
  }

  // ---------------------------------------------------------------------------
  // ORDER BY

  /**
   * A trailing `ws+ WORD ws*` after text that does not end in a blank is
   * replaced, and nothing before it is touched.
   */
  lemma ReplaceTrailingWord(p: string, w1: string, word: string, w2: string,
                            matches: string -> bool, replacement: string)
    requires forall t :: matches(t) == TrailingWordAt(t, word)
    requires |word| > 0 && !IsWs(word[0]) && !IsWs(word[|word| - 1])
    requires p == [] || !IsWs(p[|p| - 1])
    requires |w1| > 0 && AllWs(w1) && AllWs(w2)
    ensures ReplaceAnchored(p + w1 + word + w2, matches, replacement) == p + replacement
  {
    var s := p + w1 + word + w2;
    var t := s[|p|..];
    assert t == w1 + (word + w2);
    LeadingWsOfBlankPrefix(w1, word + w2);
    assert t[|w1|..|w1| + |word|] == word;
    assert t[|w1| + |word|..] == w2;
    assert matches(t);
    var q := |s| - |w2| - 1;
    assert s[q] == word[|word| - 1];
    assert s[q + 1..] == w2;
    forall j | 0 <= j < |p| ensures !matches(s[j..]) {
      assert s[|p| - 1] == p[|p| - 1];
      MatchedWordEnds(s, j, word, q);
    }
    assert s[..|p|] == p;
  }

  /** `ORDER BY x ASC` loses its `ASC` (and the blanks around it). */
  lemma OrderbyDropsTrailingAsc(p: string, w1: string, w2: string)
    requires p == [] || !IsWs(p[|p| - 1])
    requires |w1| > 0 && AllWs(w1) && AllWs(w2)
    requires forall j :: 0 <= j < |p| ==> !DescAt(p[j..])
    ensures OptimizePostsOrderby(p + w1 + "ASC" + w2) == p
  {
    ReplaceTrailingWord(p, w1, "ASC", w2, AscAt, "");
    assert p + "" == p;
  }

  /** `ORDER BY x  DESC ` becomes `ORDER BY x DESC`: one blank, no trailing blanks. */
  lemma OrderbyNormalisesDesc(p: string, w1: string, w2: string)
    requires p == [] || !IsWs(p[|p| - 1])
    requires |w1| > 0 && AllWs(w1) && AllWs(w2)
    ensures OptimizePostsOrderby(p + w1 + "DESC" + w2) == p + " DESC"
  {
    var s := p + w1 + "DESC" + w2;
    var q := |s| - |w2| - 1;
    assert s[q] == 'C' && s[q + 1..] == w2;
    assert s[q - 2..q + 1] == "ESC";
    forall j | 0 <= j < |s| ensures !AscAt(s[j..]) {
      MatchedWordEnds(s, j, "ASC", q);
    }
    ReplaceTrailingWord(p, w1, "DESC", w2, DescAt, " DESC");
  }

  // ---------------------------------------------------------------------------
  // GROUP BY

  /** Some whitespace character stands directly before a comma. */
  predicate BlankBeforeComma(s: string) {
    exists i :: 0 <= i < |s| - 1 && IsWs(s[i]) && s[i + 1] == ','
  }

  /** The clause comes back unchanged exactly when no whitespace stands directly before a comma. */
  lemma {:induction false} GroupbyUnchangedIff(s: string)
    ensures OptimizePostsGroupby(s) == s <==> !BlankBeforeComma(s)
    decreases |s|
  {
    if s == [] {
      return;
    }
    var a := LeadingWs(s);
    if 0 < a < |s| && s[a] == ',' {
      assert IsWs(s[a - 1]) && s[a - 1 + 1] == ',';
      assert OptimizePostsGroupby(s)[0] == ',' != s[0];
    } else {
      BlankThenComma(s);
      GroupbyUnchangedIff(s[1..]);
      BlankBeforeCommaStep(s);
      assert s == [s[0]] + s[1..];
    }
  }

  lemma BlankThenComma(s: string)
    ensures |s| > 1 && IsWs(s[0]) && s[1] == ',' ==> LeadingWs(s) == 1
  {
    if |s| > 1 && IsWs(s[0]) && s[1] == ',' {
      assert LeadingWs(s[1..]) == 0;
    }
  }

  /** Away from a blank-comma pair at the front, dropping the first character keeps the answer. */
  lemma BlankBeforeCommaStep(s: string)
    requires s != [] && !(|s| > 1 && IsWs(s[0]) && s[1] == ',')
    ensures BlankBeforeComma(s) <==> BlankBeforeComma(s[1..])
  {
    if BlankBeforeComma(s) {
      var i :| 0 <= i < |s| - 1 && IsWs(s[i]) && s[i + 1] == ',';
      assert i > 0;
      assert IsWs(s[1..][i - 1]) && s[1..][i - 1 + 1] == ',';
    }
    if BlankBeforeComma(s[1..]) {
      var i :| 0 <= i < |s[1..]| - 1 && IsWs(s[1..][i]) && s[1..][i + 1] == ',';
      assert IsWs(s[i + 1]) && s[i + 1 + 1] == ',';
    }
  }

  /** Only whitespace changes: with the blanks dropped, the clause and its rewrite are the same text. */
  lemma {:induction false} GroupbyOnlyTouchesBlanks(s: string)
    ensures NonBlank(OptimizePostsGroupby(s)) == NonBlank(s)
    decreases |s|
  {
    if s == [] {
      return;
    }
    var a := LeadingWs(s);
    if 0 < a < |s| && s[a] == ',' {
      var rest := s[a + 1..];
      var b := LeadingWs(rest);
      GroupbyOnlyTouchesBlanks(rest[b..]);
      NonBlankAppend(", ", OptimizePostsGroupby(rest[b..]));
      assert NonBlank(", ") == ",";
      NonBlankOfCommaRun(s, a, b);
    } else {
      GroupbyOnlyTouchesBlanks(s[1..]);
      NonBlankAppend([s[0]], OptimizePostsGroupby(s[1..]));
    }
  }

  /** One whitespace run, a comma and the whitespace after it become `", "`, and the scan goes on after them. */
  lemma GroupbyRunStart(w1: string, w2: string, q: string)
    requires |w1| > 0 && AllWs(w1) && AllWs(w2)
    requires q == [] || !IsWs(q[0])
    ensures OptimizePostsGroupby(w1 + ("," + (w2 + q))) == ", " + OptimizePostsGroupby(q)
  {
    var t := w1 + ("," + (w2 + q));
    LeadingWsOfBlankPrefix(w1, "," + (w2 + q));
    assert t[|w1|] == ',';
    var rest := t[|w1| + 1..];
    assert rest == w2 + q;
    if q == [] {
      assert rest == w2;
      LeadingWsOfBlank(w2);
    } else {
      LeadingWsOfBlankPrefix(w2, q);
    }
    assert rest[|w2|..] == q;
  }

  /** A clause that ends in a character other than a blank or a comma. */
  predicate ClosedClause(p: string) {
    p == [] || (!IsWs(p[|p| - 1]) && p[|p| - 1] != ',')
  }

  /** The first step of the scan over `p + s` when `p` starts with a whitespace run before a comma. */
  lemma GroupbyCommaStep(p: string, s: string) returns (q: string)
    requires p != [] && ClosedClause(p)
    requires 0 < LeadingWs(p) && p[LeadingWs(p)] == ','
    ensures ClosedClause(q) && |q| < |p|
    ensures OptimizePostsGroupby(p) == ", " + OptimizePostsGroupby(q)
    ensures OptimizePostsGroupby(p + s) == ", " + OptimizePostsGroupby(q + s)
  {
    var a := LeadingWs(p);
    LeadingWsConcat(p, s);
    var g := p + s;
    assert g[a] == ',';
    var rp := p[a + 1..];
    assert rp != [] && rp[|rp| - 1] == p[|p| - 1];
    var b := LeadingWs(rp);
    assert b < |rp|;
    assert g[a + 1..] == rp + s;
    LeadingWsConcat(rp, s);
    q := rp[b..];
    assert (rp + s)[b..] == q + s;
    assert q[|q| - 1] == p[|p| - 1];
  }

  /** The first step of the scan over `p + s` when `p` does not start with a whitespace run before a comma. */
  lemma GroupbyCharStep(p: string, s: string)
    requires p != [] && ClosedClause(p)
    requires !(0 < LeadingWs(p) && p[LeadingWs(p)] == ',')
    ensures ClosedClause(p[1..])
    ensures OptimizePostsGroupby(p) == [p[0]] + OptimizePostsGroupby(p[1..])
    ensures OptimizePostsGroupby(p + s) == [p[0]] + OptimizePostsGroupby(p[1..] + s)
  {
    var a := LeadingWs(p);
    LeadingWsConcat(p, s);
    assert (p + s)[a] == p[a];
    assert (p + s)[1..] == p[1..] + s;
  }

  /** A clause that ends in a character other than a blank or a comma is rewritten on its own: what follows does not change its scan. */
  lemma {:induction false} GroupbyConcat(p: string, s: string)
    requires ClosedClause(p)
    ensures OptimizePostsGroupby(p + s) == OptimizePostsGroupby(p) + OptimizePostsGroupby(s)
    decreases |p|
  {
    if p == [] {
      assert p + s == s;
    } else if 0 < LeadingWs(p) && p[LeadingWs(p)] == ',' {
      var q := GroupbyCommaStep(p, s);
      GroupbyConcat(q, s);
      AppendAssoc(", ", OptimizePostsGroupby(q), OptimizePostsGroupby(s));
    } else {
      GroupbyCharStep(p, s);
      GroupbyConcat(p[1..], s);
      AppendAssoc([p[0]], OptimizePostsGroupby(p[1..]), OptimizePostsGroupby(s));
    }
  }

  /**
   * Each `<ws>+,<ws>*` run becomes `", "`: between a clause that ends in
   * neither a blank nor a comma and text that starts with no blank, the run is
   * replaced and both sides are rewritten on their own.
   */
  lemma GroupbyRewritesRun(p: string, w1: string, w2: string, q: string)
    requires ClosedClause(p)
    requires |w1| > 0 && AllWs(w1) && AllWs(w2)
    requires q == [] || !IsWs(q[0])
    ensures OptimizePostsGroupby(p + w1 + "," + w2 + q)
         == OptimizePostsGroupby(p) + ", " + OptimizePostsGroupby(q)
  {
    var t := w1 + ("," + (w2 + q));
    calc {
      OptimizePostsGroupby(p + w1 + "," + w2 + q);
    == { RegroupRun(p, w1, w2, q); }
      OptimizePostsGroupby(p + t);
    == { GroupbyConcat(p, t); }
      OptimizePostsGroupby(p) + OptimizePostsGroupby(t);
    == { GroupbyRunStart(w1, w2, q); }
      OptimizePostsGroupby(p) + (", " + OptimizePostsGroupby(q));
    == { AppendAssoc(OptimizePostsGroupby(p), ", ", OptimizePostsGroupby(q)); }
      OptimizePostsGroupby(p) + ", " + OptimizePostsGroupby(q);
    }
  }

  lemma RegroupRun(p: string, w1: string, w2: string, q: string)
    ensures p + w1 + "," + w2 + q == p + (w1 + ("," + (w2 + q)))
  {
  }

  lemma AppendAssoc(a: string, b: string, c: string)
    ensures a + b + c == a + (b + c)
  {
  }

  lemma GroupbyOneChar(c: char)
    ensures OptimizePostsGroupby([c]) == [c]
  {
    assert [c][1..] == [];
  }

  /** A blank before a comma is not just dropped: the comma gains a blank after it. */
  lemma GroupbySpacesComma()
    ensures OptimizePostsGroupby("a ,b") == "a, b"
  {
    RegroupRun("a", " ", "", "b");
    GroupbyRewritesRun("a", " ", "", "b");
    GroupbyOneChar('a');
    GroupbyOneChar('b');
  }

  /** Blanks, a comma and blanks contribute just the comma. */
  lemma NonBlankOfCommaRun(s: string, a: nat, b: nat)
    requires a < |s| && AllWs(s[..a]) && s[a] == ','
    requires b <= |s| - a - 1 && AllWs(s[a + 1..][..b])
    ensures NonBlank(s) == "," + NonBlank(s[a + 1..][b..])
  {
    var rest := s[a + 1..];
    assert s == s[..a] + ([','] + rest) by {
      assert s == s[..a] + s[a..] && s[a..] == [','] + rest;
    }
    assert rest == rest[..b] + rest[b..];
    CommaRunPieces(s[..a], rest[..b], rest[b..]);
  }

  lemma CommaRunPieces(x: string, y: string, z: string)
    requires AllWs(x) && AllWs(y)
    ensures NonBlank(x + ([','] + (y + z))) == "," + NonBlank(z)
  {
    var w := y + z;
    calc {
      NonBlank(x + ([','] + w));
    == { NonBlankAppend(x, [','] + w); NonBlankOfBlank(x); }
      NonBlank([','] + w);
    == { NonBlankCons(',', w); }
      [','] + NonBlank(w);
    == { NonBlankAppend(y, z); NonBlankOfBlank(y); }
      [','] + NonBlank(z);
    }
  }

  lemma NonBlankCons(c: char, w: string)
    requires !IsWs(c)
    ensures NonBlank([c] + w) == [c] + NonBlank(w)
  {
    assert ([c] + w)[1..] == w;
  }
}

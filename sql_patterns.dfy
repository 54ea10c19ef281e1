/**
 * The three PCRE patterns the query filters use, as exact recognisers, and
 * `preg_replace` for them.
 *
 * Every `\s+` in these patterns stands right before a character that is not
 * whitespace (`A`, `D`, `(`, `,`), so it must take the whole whitespace run:
 * backtracking never yields another parse. `[^)]*\)` ends at the first `)`.
 * A trailing `\s*$` takes the rest of the subject when the rest is blank, and
 * `$` before a final newline adds nothing because `\s*` already swallows it.
 * So whether a pattern matches at position k depends only on `s[k..]`, and a
 * pattern ending in `\s*$` matches at most once: from the leftmost position
 * where it matches, to the end.
 */
module SqlPatterns {

  /** PCRE `\s` outside UTF mode: space, tab, line feed, vertical tab, form feed, carriage return. */
  predicate IsWs(c: char) {
    c == ' ' || c == '\t' || c == '\n' || c == '\U{000B}' || c == '\U{000C}' || c == '\r'
  }

  predicate AllWs(s: string) {
    forall i :: 0 <= i < |s| ==> IsWs(s[i])
  }

  /** The length of the whitespace run `s` starts with: what a greedy `\s*` takes. */
  function LeadingWs(s: string): (n: nat)
    ensures n <= |s|
    ensures forall i :: 0 <= i < n ==> IsWs(s[i])
    ensures n < |s| ==> !IsWs(s[n])
  {
    if s != [] && IsWs(s[0]) then 1 + LeadingWs(s[1..]) else 0
  }

  /** The index of the first `)` in `t`, or `|t|`: where `[^)]*\)` closes. */
  function FirstClose(t: string): (j: nat)
    ensures j <= |t|
    ensures forall i :: 0 <= i < j ==> t[i] != ')'
    ensures j < |t| ==> t[j] == ')'
  {
    if t == [] || t[0] == ')' then 0 else 1 + FirstClose(t[1..])
  }

  /** `t` is matched from its first character to its end by `/\s+AND\s+\([^)]*\)\s*$/`. */
  predicate AndGroupAt(t: string) {
    var a := LeadingWs(t);
    0 < a && a + 3 <= |t| && t[a..a + 3] == "AND" &&
    var u := t[a + 3..];
    var b := LeadingWs(u);
    0 < b < |u| && u[b] == '(' &&
    var v := u[b + 1..];
    var c := FirstClose(v);
    c < |v| && AllWs(v[c + 1..])
  }

  /** `t` is matched from its first character to its end by `/\s+WORD\s*$/`. */
  predicate TrailingWordAt(t: string, word: string) {
    var a := LeadingWs(t);
    0 < a && a + |word| <= |t| && t[a..a + |word|] == word && AllWs(t[a + |word|..])
  }

  predicate AscAt(t: string) { TrailingWordAt(t, "ASC") }

  predicate DescAt(t: string) { TrailingWordAt(t, "DESC") }

  // ---------------------------------------------------------------------------
  // The recognisers against the grammar the AND-group pattern spells out

  /** Every decomposition `ws+ AND ws+ ( x ) ws*` with no `)` in `x` is recognised. */
  lemma AndGroupFromParts(a: string, b: string, x: string, d: string)
    requires |a| > 0 && AllWs(a) && |b| > 0 && AllWs(b) && AllWs(d)
    requires forall i :: 0 <= i < |x| ==> x[i] != ')'
    ensures AndGroupAt(a + "AND" + b + "(" + x + ")" + d)
  {
    var v := x + (")" + d);
    var u := b + ("(" + v);
    var t := a + ("AND" + u);
    Regroup(a, b, x, d);
    LeadingWsOfBlankPrefix(a, "AND" + u);
    assert t[|a|..|a| + 3] == "AND" && t[|a| + 3..] == u;
    LeadingWsOfBlankPrefix(b, "(" + v);
    assert u[|b|] == '(' && u[|b| + 1..] == v;
    FirstCloseAfterOpenFree(x, ")" + d);
    assert v[|x|] == ')' && v[|x| + 1..] == d;
  }

  lemma Regroup(a: string, b: string, x: string, d: string)
    ensures a + "AND" + b + "(" + x + ")" + d == a + ("AND" + (b + ("(" + (x + (")" + d)))))
  {
  }

  /** Every recognised subject splits as `ws+ AND ws+ ( x ) ws*` with no `)` in `x`. */
  lemma AndGroupParts(t: string) returns (a: string, b: string, x: string, d: string)
    requires AndGroupAt(t)
    ensures |a| > 0 && AllWs(a) && |b| > 0 && AllWs(b) && AllWs(d)
    ensures forall i :: 0 <= i < |x| ==> x[i] != ')'
    ensures t == a + "AND" + b + "(" + x + ")" + d
  {
    var na := LeadingWs(t);
    var u := t[na + 3..];
    var nb := LeadingWs(u);
    var v := u[nb + 1..];
    var c := FirstClose(v);
    a, b, x, d := t[..na], u[..nb], v[..c], v[c + 1..];
    WsPrefix(t);
    WsPrefix(u);
    CloseFreePrefix(v);
    SplitAround(v, c, c + 1, ")");
    SplitAround(u, nb, nb + 1, "(");
    SplitAround(t, na, na + 3, "AND");
    Reassemble(t, u, v, a, b, x, d);
  }

  /** The run a greedy `\s*` takes is all whitespace. */
  lemma WsPrefix(s: string)
    ensures AllWs(s[..LeadingWs(s)])
  {
  }

  /** What `[^)]*` takes holds no `)`. */
  lemma CloseFreePrefix(t: string)
    ensures forall i :: 0 <= i < |t[..FirstClose(t)]| ==> t[..FirstClose(t)][i] != ')'
  {
  }

  lemma SplitAround(s: string, i: nat, j: nat, mid: string)
    requires i <= j <= |s| && s[i..j] == mid
    ensures s == s[..i] + mid + s[j..]
  {
    assert s == s[..i] + s[i..j] + s[j..];
  }

  /** Every subject of the form `ws+ WORD ws*` is recognised, for a word that starts with a non-blank. */
  lemma TrailingWordFromParts(w1: string, word: string, w2: string)
    requires |w1| > 0 && AllWs(w1) && AllWs(w2)
    requires word != [] && !IsWs(word[0])
    ensures TrailingWordAt(w1 + word + w2, word)
  {
    var t := w1 + word + w2;
    assert t == w1 + (word + w2);
    LeadingWsOfBlankPrefix(w1, word + w2);
    assert t[|w1|..|w1| + |word|] == word;
    assert t[|w1| + |word|..] == w2;
  }

  /** Every subject the trailing-word pattern recognises has the form `ws+ WORD ws*`. */
  lemma TrailingWordParts(t: string, word: string) returns (w1: string, w2: string)
    requires TrailingWordAt(t, word)
    ensures |w1| > 0 && AllWs(w1) && AllWs(w2)
    ensures t == w1 + word + w2
  {
    var a := LeadingWs(t);
    w1, w2 := t[..a], t[a + |word|..];
    WsPrefix(t);
    SplitAround(t, a, a + |word|, word);
  }

  lemma Reassemble(t: string, u: string, v: string, a: string, b: string, x: string, d: string)
    requires t == a + "AND" + u && u == b + "(" + v && v == x + ")" + d
    ensures t == a + "AND" + b + "(" + x + ")" + d
  {
  }

  lemma {:induction false} LeadingWsOfBlankPrefix(w: string, rest: string)
    requires AllWs(w)
    requires rest != [] && !IsWs(rest[0])
    ensures LeadingWs(w + rest) == |w|
    decreases |w|
  {
    if w != [] {
      assert (w + rest)[1..] == w[1..] + rest;
      LeadingWsOfBlankPrefix(w[1..], rest);
    } else {
      assert w + rest == rest;
    }
  }

  /** A blank string is one whitespace run. */
  lemma {:induction false} LeadingWsOfBlank(w: string)
    requires AllWs(w)
    ensures LeadingWs(w) == |w|
    decreases |w|
  {
    if w != [] {
      LeadingWsOfBlank(w[1..]);
    }
  }

  /** A run that ends inside `x` is not lengthened by what follows `x`. */
  lemma {:induction false} LeadingWsConcat(x: string, y: string)
    requires LeadingWs(x) < |x|
    ensures LeadingWs(x + y) == LeadingWs(x)
    decreases |x|
  {
    if IsWs(x[0]) {
      assert (x + y)[1..] == x[1..] + y;
      LeadingWsConcat(x[1..], y);
    }
  }

  lemma {:induction false} FirstCloseAfterOpenFree(x: string, rest: string)
    requires forall i :: 0 <= i < |x| ==> x[i] != ')'
    requires rest != [] && rest[0] == ')'
    ensures FirstClose(x + rest) == |x|
    decreases |x|
  {
    if x != [] {
      var t := x + rest;
      assert t[0] == x[0] != ')';
      assert t[1..] == x[1..] + rest;
      assert forall i :: 0 <= i < |x[1..]| ==> x[1..][i] == x[i + 1];
      FirstCloseAfterOpenFree(x[1..], rest);
      assert FirstClose(t) == 1 + FirstClose(t[1..]);
    } else {
      assert x + rest == rest;
    }
  }

  // ---------------------------------------------------------------------------
  // preg_replace with a pattern that ends in \s*$

  /** The leftmost position at or after `from` where the pattern matches, or `|s|`. */
  function FirstMatch(s: string, matches: string -> bool, from: nat): (k: nat)
    requires from <= |s|
    ensures from <= k <= |s|
    ensures k < |s| ==> matches(s[k..])
    ensures forall j :: from <= j < k ==> !matches(s[j..])
    decreases |s| - from
  {
    if from == |s| then |s|
    else if matches(s[from..]) then from
    else FirstMatch(s, matches, from + 1)
  }

  /**
   * `preg_replace` of a pattern that, wherever it matches, matches to the end
   * of the subject and never matches the empty remainder: the subject up to the
   * leftmost match, then the replacement; the subject itself when nothing matches.
   */
  function ReplaceAnchored(s: string, matches: string -> bool, replacement: string): (r: string)
    ensures (forall j :: 0 <= j < |s| ==> !matches(s[j..])) ==> r == s
    ensures forall k :: 0 <= k < |s| && matches(s[k..]) && (forall j :: 0 <= j < k ==> !matches(s[j..])) ==>
      r == s[..k] + replacement
  {
    var k := FirstMatch(s, matches, 0);
    if k < |s| then s[..k] + replacement else s
  }

  /**
   * Where a trailing-word match starting at `j` puts its word: it ends at the
   * subject's last non-blank character `q`, and only blanks lie between `j` and it.
   */
  lemma MatchedWordEnds(s: string, j: nat, word: string, q: nat)
    requires j <= |s|
    requires |word| > 0 && !IsWs(word[|word| - 1])
    requires q < |s| && !IsWs(s[q]) && AllWs(s[q + 1..])
    ensures TrailingWordAt(s[j..], word) ==>
      && j + LeadingWs(s[j..]) + |word| == q + 1
      && s[q + 1 - |word|..q + 1] == word
      && forall i :: j <= i < q + 1 - |word| ==> IsWs(s[i])
  {
    if TrailingWordAt(s[j..], word) {
      var t := s[j..];
      var a := LeadingWs(t);
      var e := j + a + |word|;
      assert s[j + a..e] == t[a..a + |word|] == word;
      assert s[e - 1] == word[|word| - 1];
      forall i | j <= i < q + 1 - |word| ensures IsWs(s[i]) {
        assert s[i] == t[i - j];
      }
    }
  }

  // ---------------------------------------------------------------------------
  // What survives a rewrite that only touches whitespace

  /** The subject with every whitespace character dropped. */
  function NonBlank(s: string): (r: string)
    ensures |r| <= |s|
  {
    if s == [] then [] else (if IsWs(s[0]) then [] else [s[0]]) + NonBlank(s[1..])
  }

  lemma {:induction false} NonBlankAppend(x: string, y: string)
    ensures NonBlank(x + y) == NonBlank(x) + NonBlank(y)
    decreases |x|
  {
    if x != [] {
      assert (x + y)[1..] == x[1..] + y;
      NonBlankAppend(x[1..], y);
    } else {
      assert x + y == y;
    }
  }

  lemma {:induction false} NonBlankOfBlank(w: string)
    requires AllWs(w)
    ensures NonBlank(w) == []
    decreases |w|
  {
    if w != [] {
      NonBlankOfBlank(w[1..]);
    }
  }
}

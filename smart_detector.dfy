/**
 * The smart detector's `posts_where` filter. It applies the same pattern and
 * replacement as the universal optimizer's filter, so with both active a
 * clause goes through the same rewrite twice.
 */
module SmartDetector {
  import opened SqlPatterns
  import UniversalOptimizer

  /** `preg_replace('/\s+AND\s+\([^)]*\)\s*$/', '', $where)`. */
  function OptimizePostsWhere(where: string): (r: string)
    // the result is a prefix of the clause
    ensures |r| <= |where| && r == where[..|r|]
    // the clause comes back unchanged exactly when no trailing AND-group matches anywhere
    ensures r == where <==> forall j :: 0 <= j < |where| ==> !AndGroupAt(where[j..])
    // otherwise what was cut off is the leftmost trailing AND-group
    ensures r != where ==>
      AndGroupAt(where[|r|..]) && forall j :: 0 <= j < |r| ==> !AndGroupAt(where[j..])
  {
    ReplaceAnchored(where, AndGroupAt, "")
  }

  /** Both filters rewrite every clause alike. */
  lemma AgreesWithUniversalOptimizer(where: string)
    ensures OptimizePostsWhere(where) == UniversalOptimizer.OptimizePostsWhere(where)
  {
  }

  /**
   * One call removes only the last group, so a second call, such as the other
   * plugin component's filter on the same clause, may remove another.
   */
  lemma SecondApplicationRemovesAnother(p: string, g1: string, g2: string)
    requires forall i :: 0 <= i < |p| ==> !IsWs(p[i])
    requires AndGroupAt(g1) && g1[|g1| - 1] == ')'
    requires AndGroupAt(g2)
    ensures OptimizePostsWhere(p + g1 + g2) == p + g1
    ensures UniversalOptimizer.OptimizePostsWhere(OptimizePostsWhere(p + g1 + g2)) == p
  {
    UniversalOptimizer.SecondApplicationRemovesAnother(p, g1, g2);
  }
}

/**
  The reference rewriter of the workflow documentation: a fixed table maps
  each legacy document name to a category and a new name, and every workflow
  file is rewritten entry by entry with three substitutions (a backticked
  name, a dash list item with a backticked name, and a dash list item with a
  bare name). Files live in a map from name to document; the three regular
  expressions are written out as explicit scanners.
 */
module WorkflowRewriter {
  import opened Common

  /** One row of the table: old file name, category directory, new file name. */
  datatype Mapping = Mapping(oldName: string, category: string, newName: string)

  /** The table, in the order the rewriter visits it. */
  const FileMappings: seq<Mapping> := [
    Mapping("requirements-analysis.md", "requirements", "analysis.md"),
    Mapping("ml-requirements.md", "requirements", "ml-requirements.md"),
    Mapping("project-analysis.md", "requirements", "project-analysis.md"),
    Mapping("security-requirements.md", "requirements", "security-requirements.md"),
    Mapping("design-document.md", "design", "document.md"),
    Mapping("ml-architecture.md", "design", "ml-architecture.md"),
    Mapping("architecture.md", "design", "architecture.md"),
    Mapping("workflow-design.md", "design", "workflow-design.md"),
    Mapping("plugin-design.md", "design", "plugin-design.md"),
    Mapping("tech-stack.md", "design", "tech-stack.md"),
    Mapping("plugin-specs.md", "design", "plugin-specs.md"),
    Mapping("cicd-strategy.md", "design", "cicd-strategy.md"),
    Mapping("observability-architecture.md", "design", "observability-architecture.md"),
    Mapping("code-review-report.md", "quality", "code-review.md"),
    Mapping("test-report.md", "quality", "test-report.md"),
    Mapping("style-review-report.md", "quality", "style-review.md"),
    Mapping("logic-review-report.md", "quality", "logic-review.md"),
    Mapping("architecture-review-report.md", "quality", "architecture-review.md"),
    Mapping("skill-test-report.md", "quality", "skill-test-report.md"),
    Mapping("validation-report.md", "quality", "validation-report.md"),
    Mapping("visual-test-report.md", "quality", "visual-test-report.md"),
    Mapping("functional-test-report.md", "quality", "functional-test-report.md"),
    Mapping("security-report.md", "security", "audit.md"),
    Mapping("security-audit.md", "security", "audit.md"),
    Mapping("security-audit-report.md", "security", "audit.md"),
    Mapping("security-scope.md", "security", "scope.md"),
    Mapping("asset-inventory.md", "security", "asset-inventory.md"),
    Mapping("threat-model.md", "security", "threat-model.md"),
    Mapping("owasp-review-report.md", "security", "owasp-review.md"),
    Mapping("vulnerability-findings.json", "security", "findings.json"),
    Mapping("compliance-report.md", "security", "compliance.md"),
    Mapping("compliance-gaps.json", "security", "compliance-gaps.json"),
    Mapping("remediation-plan.md", "security", "remediation-plan.md"),
    Mapping("auto-fixes-log.md", "security", "auto-fixes-log.md"),
    Mapping("manual-fixes-required.md", "security", "manual-fixes-required.md"),
    Mapping("security-metrics.json", "security", "metrics.json"),
    Mapping("performance-report.md", "performance", "analysis.md"),
    Mapping("performance-analysis-report.md", "performance", "analysis.md"),
    Mapping("cost-analysis-report.md", "performance", "cost-analysis.md"),
    Mapping("rightsizing-report.md", "performance", "rightsizing.md"),
    Mapping("storage-optimization-report.md", "performance", "storage-optimization.md"),
    Mapping("reserved-capacity-report.md", "performance", "reserved-capacity.md"),
    Mapping("autoscaling-report.md", "performance", "autoscaling.md"),
    Mapping("networking-optimization-report.md", "performance", "networking-optimization.md"),
    Mapping("finops-monitoring-report.md", "performance", "finops-monitoring.md"),
    Mapping("accessibility-report.md", "accessibility", "audit.md"),
    Mapping("wcag-audit.md", "accessibility", "wcag-audit.md"),
    Mapping("deployment-guide.md", "deployment", "guide.md"),
    Mapping("deployment-report.md", "deployment", "report.md"),
    Mapping("commit-message.txt", "deployment", "commit-message.txt"),
    Mapping("rollback-guide.md", "deployment", "rollback-guide.md"),
    Mapping("pre-deployment-code-review.md", "deployment", "pre-deployment-review.md"),
    Mapping("migration-validation-report.md", "deployment", "migration-validation.md"),
    Mapping("code-analysis.md", "analysis", "code-analysis.md"),
    Mapping("code-analysis-report.md", "analysis", "code-analysis.md"),
    Mapping("migration-strategy.md", "analysis", "migration-strategy.md"),
    Mapping("risk-matrix.md", "analysis", "risk-matrix.md"),
    Mapping("refactoring-plan.md", "analysis", "refactoring-plan.md"),
    Mapping("refactoring-log.md", "analysis", "refactoring-log.md"),
    Mapping("refactoring-summary.md", "analysis", "refactoring-summary.md"),
    Mapping("bug-reproduction.md", "analysis", "bug-reproduction.md"),
    Mapping("root-cause-analysis.md", "analysis", "root-cause-analysis.md"),
    Mapping("bug-fix-docs.md", "analysis", "bug-fix-docs.md"),
    Mapping("deployment-plan.md", "infrastructure", "deployment-plan.md"),
    Mapping("slo-definitions.md", "infrastructure", "slo-definitions.md")
  ]

  /** `.orchestr8/docs/{category}/{new_name}` */
  function NewPath(m: Mapping): string
  {
    ".orchestr8/docs/" + m.category + "/" + m.newName
  }

  /** A name between single backticks. */
  function Tick(s: string): string
  {
    "`" + s + "`"
  }

  /** The characters `\s` matches in a Python `str` pattern (those for which `str.isspace` holds). */
  predicate IsSpace(c: char)
  {
    || c == ' ' || ('\t' <= c <= '\r') || ('\U{1C}' <= c <= '\U{1F}')
    || c == '\U{85}' || c == '\U{A0}' || c == '\U{1680}' || ('\U{2000}' <= c <= '\U{200A}')
    || c == '\U{2028}' || c == '\U{2029}' || c == '\U{202F}' || c == '\U{205F}' || c == '\U{3000}'
  }

  predicate NoSpace(s: string)
  {
    forall i :: 0 <= i < |s| ==> !IsSpace(s[i])
  }

  predicate NoTick(s: string)
  {
    forall i :: 0 <= i < |s| ==> s[i] != '`'
  }

  /**
    What every row of the table satisfies and the proofs below rely on: names
    and categories hold no backtick and no whitespace, old names do not start
    with '.', and no new name ends with '-'.
   */
  predicate WellFormed(m: Mapping)
  {
    && |m.oldName| > 0 && |m.newName| > 0
    && m.oldName[0] != '.'
    && NoTick(m.oldName) && NoTick(m.category) && NoTick(m.newName)
    && NoSpace(m.oldName) && NoSpace(m.category) && NoSpace(m.newName)
    && m.newName[|m.newName| - 1] != '-'
  }

  // ---------------------------------------------------------------------
  // Pattern 1: `content.replace(f"`{old}`", f"`{new_path}`")`
  // ---------------------------------------------------------------------


  /** Python's `s.replace(pat, rep)`: leftmost, non-overlapping occurrences, scanning left to right. */
  function Replace(s: string, pat: string, rep: string): string
    requires |pat| > 0
    decreases |s|
  {
    if |s| < |pat| then s
    else if s[..|pat|] == pat then rep + Replace(s[|pat|..], pat, rep)
    else [s[0]] + Replace(s[1..], pat, rep)
  }

  /** A text with no occurrence of the pattern is returned unchanged. */
  lemma {:induction false} ReplaceWithoutOccurrence(s: string, pat: string, rep: string)
    requires |pat| > 0
    requires forall j: nat :: !OccursAt(s, pat, j)
    ensures Replace(s, pat, rep) == s
    decreases |s|
  {
    if |s| >= |pat| {
      assert !OccursAt(s, pat, 0);
      forall j: nat ensures !OccursAt(s[1..], pat, j) {
        assert j + 1 + |pat| <= |s| ==> s[1..][j..j + |pat|] == s[j + 1..j + 1 + |pat|];
        assert !OccursAt(s, pat, j + 1);
      }
      ReplaceWithoutOccurrence(s[1..], pat, rep);
    }
  }

  /** A backtick-free prefix of the input is copied, since every match starts with a backtick. */
  lemma {:induction false} ReplaceCopiesTicklessInput(v: string, pat: string, rep: string, k: nat)
    requires |pat| > 0 && pat[0] == '`'
    requires k <= |v| && NoTick(v[..k])
    ensures Replace(v, pat, rep) == v[..k] + Replace(v[k..], pat, rep)
    decreases k
  {
    if k > 0 && |v| >= |pat| {
      assert v[..k][0] == v[0];
      assert v[..|pat|][0] != pat[0];
      var w := v[1..][..k - 1];
      assert NoTick(w) by {
        forall i | 0 <= i < k - 1 ensures w[i] != '`' {
          assert w[i] == v[..k][i + 1];
        }
      }
      ReplaceCopiesTicklessInput(v[1..], pat, rep, k - 1);
      assert v[1..][k - 1..] == v[k..];
      assert v[..k] == [v[0]] + v[1..][..k - 1];
    }
  }

  /** An output that does not start with a backtick copied the input's first character. */
  lemma ReplaceFirstNonTick(v: string, pat: string, rep: string)
    requires |pat| > 0 && pat[0] == '`' && |rep| > 0 && rep[0] == '`'
    requires |Replace(v, pat, rep)| > 0 && Replace(v, pat, rep)[0] != '`'
    ensures |v| > 0 && Replace(v, pat, rep) == [v[0]] + Replace(v[1..], pat, rep)
  {
    if |v| < |pat| {
      assert Replace(v[1..], pat, rep) == v[1..];
      assert v == [v[0]] + v[1..];
    } else {
      assert v[..|pat|] != pat by { assert (rep + Replace(v[|pat|..], pat, rep))[0] == '`'; }
    }
  }

  /** A backtick-free prefix of the output was copied from the input. */
  lemma {:induction false} ReplaceCopiesTicklessOutput(v: string, pat: string, rep: string, k: nat)
    requires |pat| > 0 && pat[0] == '`' && |rep| > 0 && rep[0] == '`'
    requires k <= |Replace(v, pat, rep)| && NoTick(Replace(v, pat, rep)[..k])
    ensures k <= |v| && Replace(v, pat, rep) == v[..k] + Replace(v[k..], pat, rep)
    decreases k
  {
    if k > 0 {
      var t := Replace(v, pat, rep);
      assert t[0] != '`' by { assert t[..k][0] == t[0]; }
      ReplaceFirstNonTick(v, pat, rep);
      var t' := Replace(v[1..], pat, rep);
      TicklessTail(t, t', k);
      ReplaceCopiesTicklessOutput(v[1..], pat, rep, k - 1);
      assert v[1..][k - 1..] == v[k..];
      ConsPrefix(v, k, t, t', Replace(v[k..], pat, rep));
    }
  }

  /** Dropping the first character of a text keeps its backtick-free prefix backtick-free. */
  lemma TicklessTail(t: string, t': string, k: nat)
    requires 0 < k <= |t| && |t| > 0 && t == [t[0]] + t' && NoTick(t[..k])
    ensures k - 1 <= |t'| && NoTick(t'[..k - 1])
  {
    var w := t'[..k - 1];
    forall i | 0 <= i < k - 1 ensures w[i] != '`' {
      assert w[i] == t[..k][i + 1];
    }
  }

  /** The first character followed by the next `k - 1` is the prefix of length `k`. */
  lemma ConsPrefix(v: string, k: nat, t: string, t': string, r: string)
    requires 0 < k <= |v|
    requires t == [v[0]] + t' && t' == v[1..][..k - 1] + r
    ensures t == v[..k] + r
  {
    assert v[..k] == [v[0]] + v[1..][..k - 1];
  }

  /** An output that starts with a backtick comes from an input that does. */
  lemma ReplaceFirstTick(w: string, pat: string, rep: string)
    requires |pat| > 0 && pat[0] == '`'
    ensures |Replace(w, pat, rep)| > 0 && Replace(w, pat, rep)[0] == '`' ==> |w| > 0 && w[0] == '`'
  {
    if |w| >= |pat| && w[..|pat|] == pat {
      assert w[0] == w[..|pat|][0];
    }
  }

  /** An output that starts with the backtick-free `name` copied it from the input. */
  lemma ReplaceCopiesName(v: string, name: string, pat: string, rep: string)
    requires |pat| > 0 && pat[0] == '`' && |rep| > 0 && rep[0] == '`' && NoTick(name)
    ensures |Replace(v, pat, rep)| >= |name| && Replace(v, pat, rep)[..|name|] == name ==>
              |v| >= |name| && v[..|name|] == name && Replace(v, pat, rep) == name + Replace(v[|name|..], pat, rep)
  {
    if |Replace(v, pat, rep)| >= |name| && Replace(v, pat, rep)[..|name|] == name {
      ReplaceCopiesTicklessOutput(v, pat, rep, |name|);
    }
  }

  /** The two names pattern 1 swaps: backtick-free, and they differ in their first character. */
  predicate Swappable(name: string, np: string)
  {
    |name| > 0 && |np| > 0 && NoTick(name) && NoTick(np) && name[0] != np[0]
  }

  /** After pattern 1 the text never starts with a backticked old name. */
  lemma ReplaceNeverStartsWithPattern(u: string, name: string, np: string)
    requires Swappable(name, np)
    ensures !OccursAt(Replace(u, Tick(name), Tick(np)), Tick(name), 0)
  {
    if OccursAt(u, Tick(name), 0) {
      RewrittenStartDiffers(u, name, np);
    } else {
      UnmatchedStartStaysUnmatched(u, name, np);
    }
  }

  /** A text starting with a reference is rewritten to start with the new path, which differs from it. */
  lemma RewrittenStartDiffers(u: string, name: string, np: string)
    requires Swappable(name, np) && OccursAt(u, Tick(name), 0)
    ensures !OccursAt(Replace(u, Tick(name), Tick(np)), Tick(name), 0)
  {
    var pat, rep := Tick(name), Tick(np);
    ReplaceAtMatch(u, pat, rep);
    var t := rep + Replace(u[|pat|..], pat, rep);
    assert t[1] == np[0] && pat[1] == name[0];
    if |t| >= |pat| {
      assert t[..|pat|][1] != pat[1];
    }
  }

  /** A backtick, the name and a backtick make a reference. */
  lemma ReferenceFromParts(u: string, name: string)
    ensures |u| > |name| + 1 && u[0] == '`' && u[1..][..|name|] == name && u[1..][|name|..][0] == '`' ==>
              OccursAt(u, Tick(name), 0)
  {
    if |u| > |name| + 1 && u[0] == '`' && u[1..][..|name|] == name && u[1..][|name|..][0] == '`' {
      assert u[..|name| + 2] == [u[0]] + u[1..][..|name|] + [u[1..][|name|..][0]];
    }
  }

  /** A reference at the start of `c + t'` is a backtick `c`, then the name and a backtick in `t'`. */
  lemma ReferenceParts(t: string, t': string, name: string)
    requires |t| > 0 && t == [t[0]] + t'
    ensures OccursAt(t, Tick(name), 0) ==>
              t[0] == '`' && |t'| > |name| && t'[..|name|] == name && t'[|name|] == '`'
  {
    if OccursAt(t, Tick(name), 0) {
      var pat := Tick(name);
      assert t[0] == t[..|pat|][0];
      forall i | 0 <= i < |name| ensures t'[..|name|][i] == name[i] {
        assert t'[..|name|][i] == t[..|pat|][i + 1];
      }
      assert t'[|name|] == t[..|pat|][|name| + 1];
    }
  }

  /** A text not starting with a reference does not start with one after pattern 1 either. */
  lemma UnmatchedStartStaysUnmatched(u: string, name: string, np: string)
    requires Swappable(name, np) && !OccursAt(u, Tick(name), 0)
    ensures !OccursAt(Replace(u, Tick(name), Tick(np)), Tick(name), 0)
  {
    var pat, rep := Tick(name), Tick(np);
    if |u| >= |pat| {
      ReplaceAtMiss(u, pat, rep);
      var t' := Replace(u[1..], pat, rep);
      ReferenceParts(Replace(u, pat, rep), t', name);
      ReplaceCopiesName(u[1..], name, pat, rep);
      var w := u[1..][|name|..];
      ReplaceFirstTick(w, pat, rep);
      assert (name + Replace(w, pat, rep))[|name|..] == Replace(w, pat, rep);
      ReferenceFromParts(u, name);
    }
  }

  /**
    Every backticked old name that survives pattern 1 starts at the closing
    backtick of a rewritten reference: the character before it is the last
    character of the new path.
   */
  lemma {:induction false} ReplaceSurvivorsFollowNewPath(s: string, name: string, np: string, j: nat)
    requires Swappable(name, np)
    requires OccursAt(Replace(s, Tick(name), Tick(np)), Tick(name), j)
    ensures j >= 1 && Replace(s, Tick(name), Tick(np))[j - 1] == np[|np| - 1]
    decreases |s|, 1
  {
    if j == 0 {
      ReplaceNeverStartsWithPattern(s, name, np);
    } else if OccursAt(s, Tick(name), 0) {
      SurvivorAfterMatch(s, name, np, j);
    } else {
      SurvivorAfterMiss(s, name, np, j);
    }
  }

  /** The case of `ReplaceSurvivorsFollowNewPath` where the text starts with a reference. */
  lemma {:induction false} SurvivorAfterMatch(s: string, name: string, np: string, j: nat)
    requires Swappable(name, np) && OccursAt(s, Tick(name), 0) && j >= 1
    requires OccursAt(Replace(s, Tick(name), Tick(np)), Tick(name), j)
    ensures Replace(s, Tick(name), Tick(np))[j - 1] == np[|np| - 1]
    decreases |s|, 0
  {
    if j >= |Tick(np)| {
      SurvivorPastRewrite(s, Tick(name), Tick(np), j);
      ReplaceSurvivorsFollowNewPath(s[|Tick(name)|..], name, np, j - |Tick(np)|);
    } else {
      SurvivorInsideRewrite(s, name, np, j);
    }
  }

  /** The case of `ReplaceSurvivorsFollowNewPath` where the text does not start with a reference. */
  lemma {:induction false} SurvivorAfterMiss(s: string, name: string, np: string, j: nat)
    requires Swappable(name, np) && !OccursAt(s, Tick(name), 0) && j >= 1
    requires OccursAt(Replace(s, Tick(name), Tick(np)), Tick(name), j)
    ensures Replace(s, Tick(name), Tick(np))[j - 1] == np[|np| - 1]
    decreases |s|, 0
  {
    var pat, rep := Tick(name), Tick(np);
    var rest := s[1..];
    assert |s| > 0 && OccursAt(Replace(rest, pat, rep), pat, j - 1)
      && (j >= 2 ==> Replace(s, pat, rep)[j - 1] == Replace(rest, pat, rep)[j - 2]) by {
      SurvivorPastCopy(s, pat, rep, j);
    }
    ReplaceSurvivorsFollowNewPath(rest, name, np, j - 1);
  }

  /** An occurrence after a replaced match is an occurrence in the rewrite of the rest. */
  lemma SurvivorPastRewrite(s: string, pat: string, rep: string, j: nat)
    requires |pat| > 0 && OccursAt(s, pat, 0) && j >= |rep|
    requires OccursAt(Replace(s, pat, rep), pat, j)
    ensures OccursAt(Replace(s[|pat|..], pat, rep), pat, j - |rep|)
    ensures j - |rep| >= 1 ==> Replace(s, pat, rep)[j - 1] == Replace(s[|pat|..], pat, rep)[j - |rep| - 1]
  {
    ReplaceAtMatch(s, pat, rep);
    var t, t' := Replace(s, pat, rep), Replace(s[|pat|..], pat, rep);
    assert t[|rep|..] == t';
    ShiftedOccurrence(t, t', |rep|, j, pat);
  }

  /** An occurrence after a copied character is an occurrence in the rewrite of the rest. */
  lemma SurvivorPastCopy(s: string, pat: string, rep: string, j: nat)
    requires |pat| > 0 && !OccursAt(s, pat, 0) && j >= 1
    requires OccursAt(Replace(s, pat, rep), pat, j)
    ensures |s| > 0
    ensures OccursAt(Replace(s[1..], pat, rep), pat, j - 1)
    ensures j >= 2 ==> Replace(s, pat, rep)[j - 1] == Replace(s[1..], pat, rep)[j - 2]
  {
    var t := Replace(s, pat, rep);
    OccurrenceNeedsLongText(s, pat, rep, j);
    ReplaceAtMiss(s, pat, rep);
    var t' := Replace(s[1..], pat, rep);
    assert t[1..] == t';
    ShiftedOccurrence(t, t', 1, j, pat);
  }

  /** An occurrence starting inside a rewritten reference starts at its closing backtick. */
  lemma SurvivorInsideRewrite(s: string, name: string, np: string, j: nat)
    requires Swappable(name, np) && OccursAt(s, Tick(name), 0) && 0 < j < |Tick(np)|
    requires OccursAt(Replace(s, Tick(name), Tick(np)), Tick(name), j)
    ensures Replace(s, Tick(name), Tick(np))[j - 1] == np[|np| - 1]
  {
    var pat, rep := Tick(name), Tick(np);
    ReplaceAtMatch(s, pat, rep);
    var t := Replace(s, pat, rep);
    assert t[j] == t[j..j + |pat|][0] == '`';
    assert t[j] == rep[j];
    RewrittenReferenceTick(np, j);
    assert t[j - 1] == rep[j - 1];
  }

  /** An occurrence past the first `d` characters is an occurrence in the rest. */
  lemma ShiftedOccurrence(t: string, t': string, d: nat, j: nat, pat: string)
    requires d <= j && d <= |t| && t[d..] == t' && OccursAt(t, pat, j)
    ensures OccursAt(t', pat, j - d)
  {
    assert t'[j - d..j - d + |pat|] == t[j..j + |pat|];
  }

  /** The only backtick inside a backticked new path past its opening one is the closing one, after the path's last character. */
  lemma RewrittenReferenceTick(np: string, j: nat)
    requires |np| > 0 && NoTick(np) && 0 < j < |Tick(np)| && Tick(np)[j] == '`'
    ensures Tick(np)[j - 1] == np[|np| - 1]
  {
    forall k | 0 < k <= |np| ensures Tick(np)[k] != '`' {
      assert Tick(np)[k] == np[k - 1];
    }
  }

  /** A backticked reference after backtick-free text is rewritten in place. */
  lemma ReplaceRewritesReference(a: string, b: string, name: string, np: string)
    requires |name| > 0 && NoTick(a)
    ensures Replace(a + Tick(name) + b, Tick(name), Tick(np)) == a + Tick(np) + Replace(b, Tick(name), Tick(np))
  {
    var pat, rep := Tick(name), Tick(np);
    var s := a + pat + b;
    assert s[..|a|] == a;
    ReplaceCopiesTicklessInput(s, pat, rep, |a|);
    assert s[|a|..] == pat + b;
    assert (pat + b)[..|pat|] == pat;
    assert (pat + b)[|pat|..] == b;
  }

  // ---------------------------------------------------------------------
  // Line scanning shared by patterns 2 and 3
  // ---------------------------------------------------------------------

  /** Where `^` matches under `re.MULTILINE`: the start of the text or just after a newline. */
  predicate AtLineStart(s: string, i: nat)
    requires i <= |s|
  {
    i == 0 || s[i - 1] == '\n'
  }

  /** The greedy `\s*` from position `i`: the first non-whitespace position. */
  function SkipSpaces(s: string, i: nat): (j: nat)
    requires i <= |s|
    ensures i <= j <= |s|
    ensures forall k :: i <= k < j ==> IsSpace(s[k])
    ensures j == |s| || !IsSpace(s[j])
    decreases |s| - i
  {
    if i < |s| && IsSpace(s[i]) then SkipSpaces(s, i + 1) else i
  }

  lemma {:induction false} SkipSpacesTo(s: string, i: nat, j: nat)
    requires i <= j <= |s|
    requires forall p :: i <= p < j ==> IsSpace(s[p])
    requires j == |s| || !IsSpace(s[j])
    ensures SkipSpaces(s, i) == j
    decreases j - i
  {
    if i < j {
      SkipSpacesTo(s, i + 1, j);
    }
  }

  // ---------------------------------------------------------------------
  // Pattern 2: re.sub(r'^(\s*)-\s*`old`', r"\1- `new_path`", content, flags=re.MULTILINE)
  // ---------------------------------------------------------------------

  /**
    The pattern tried at a line start `i`: the position of the dash and the end
    of the match. Both `\s*` runs are greedy and what follows them is not
    whitespace, so no backtracking can find another match.
   */
  function DashTickMatch(s: string, i: nat, name: string): (r: Option<(nat, nat)>)
    requires i <= |s|
    ensures r.Some? ==> i <= r.value.0 < r.value.1 <= |s|
  {
    var j := SkipSpaces(s, i);
    if j < |s| && s[j] == '-' then
      var k := SkipSpaces(s, j + 1);
      if OccursAt(s, Tick(name), k) then Some((j, k + |Tick(name)|)) else None
    else None
  }

  /** `re.sub` with pattern 2 over `s[i..]`; `^` is judged on the whole text. */
  function SubDashTick(s: string, i: nat, m: Mapping): string
    requires i <= |s|
    decreases |s| - i
  {
    if i == |s| then ""
    else
      var hit := if AtLineStart(s, i) then DashTickMatch(s, i, m.oldName) else None;
      match hit
      case Some((j, e)) => s[i..j] + "- " + Tick(NewPath(m)) + SubDashTick(s, e, m)
      case None => [s[i]] + SubDashTick(s, i + 1, m)
  }

  lemma {:induction false} SubDashTickIdentity(s: string, i: nat, m: Mapping)
    requires i <= |s|
    requires forall k: nat :: i <= k <= |s| && AtLineStart(s, k) ==> DashTickMatch(s, k, m.oldName).None?
    ensures SubDashTick(s, i, m) == s[i..]
    decreases |s| - i
  {
    if i < |s| {
      SubDashTickIdentity(s, i + 1, m);
      assert s[i..] == [s[i]] + s[i + 1..];
    }
  }

  /** A new path starts with '.', ends like the new name and holds no backtick or whitespace. */
  lemma NewPathShape(m: Mapping)
    requires WellFormed(m)
    ensures var np := NewPath(m);
            && np[0] == '.' && np[|np| - 1] == m.newName[|m.newName| - 1]
            && NoTick(np) && NoSpace(np)
  {
    var np := NewPath(m);
    forall i | 0 <= i < |np| ensures np[i] != '`' && !IsSpace(np[i]) {
      var pre := ".orchestr8/docs/";
      if i < |pre| {
      } else if i < |pre| + |m.category| {
        assert np[i] == m.category[i - |pre|];
      } else if i == |pre| + |m.category| {
      } else {
        assert np[i] == m.newName[i - |pre| - |m.category| - 1];
      }
    }
  }

  /**
    Pattern 2 never fires after pattern 1: the dash-and-backtick form it looks
    for needs a backticked old name right after a dash or whitespace, and every
    such name left by pattern 1 follows the end of a new path instead.
   */
  lemma PatternTwoNeverFires(s: string, m: Mapping)
    requires WellFormed(m)
    ensures var t := Replace(s, Tick(m.oldName), Tick(NewPath(m)));
            SubDashTick(t, 0, m) == t
  {
    var np := NewPath(m);
    var t := Replace(s, Tick(m.oldName), Tick(np));
    NewPathShape(m);
    forall k: nat | k <= |t| && AtLineStart(t, k) ensures DashTickMatch(t, k, m.oldName).None? {
      var j := SkipSpaces(t, k);
      if j < |t| && t[j] == '-' {
        var k' := SkipSpaces(t, j + 1);
        if OccursAt(t, Tick(m.oldName), k') {
          ReplaceSurvivorsFollowNewPath(s, m.oldName, np, k');
        }
      }
    }
    SubDashTickIdentity(t, 0, m);
  }

  // ---------------------------------------------------------------------
  // Pattern 3: re.sub(r'^(\s*)-\s+old(\s|$)', r"\1- new_path\2", content, flags=re.MULTILINE)
  // ---------------------------------------------------------------------

  /**
    The pattern tried at a line start `i`: the dash position, the end of the
    name and the end of the match (one past the boundary whitespace, or the
    end of the text). Exact when the name does not start with whitespace.
   */
  function DashNameMatch(s: string, i: nat, name: string): (r: Option<(nat, nat, nat)>)
    requires i <= |s|
    ensures r.Some? ==> i <= r.value.0 < r.value.1 <= r.value.2 <= |s|
  {
    var j := SkipSpaces(s, i);
    if j < |s| && s[j] == '-' then
      var k := SkipSpaces(s, j + 1);
      if k > j + 1 && OccursAt(s, name, k) then
        var n := k + |name|;
        if n == |s| then Some((j, n, n))
        else if IsSpace(s[n]) then Some((j, n, n + 1))
        else None
      else None
    else None
  }

  /** `re.sub` with pattern 3 over `s[i..]`. */
  function SubDashName(s: string, i: nat, m: Mapping): string
    requires i <= |s|
    decreases |s| - i
  {
    if i == |s| then ""
    else
      var hit := if AtLineStart(s, i) then DashNameMatch(s, i, m.oldName) else None;
      match hit
      case Some((j, n, e)) => s[i..j] + "- " + NewPath(m) + s[n..e] + SubDashName(s, e, m)
      case None => [s[i]] + SubDashName(s, i + 1, m)
  }

  lemma {:induction false} SubDashNameIdentity(s: string, i: nat, m: Mapping)
    requires i <= |s|
    requires forall k: nat :: i <= k <= |s| && AtLineStart(s, k) ==> DashNameMatch(s, k, m.oldName).None?
    ensures SubDashName(s, i, m) == s[i..]
    decreases |s| - i
  {
    if i < |s| {
      SubDashNameIdentity(s, i + 1, m);
      assert s[i..] == [s[i]] + s[i + 1..];
    }
  }

  /**
    The list form `<ws>-<sp>old<b>` at a line start becomes `<ws>- new_path<b>`:
    the leading whitespace and the boundary (one whitespace character, or the
    end of the text) are kept, and scanning resumes after the boundary.
   */
  lemma DashNameMatchesAt(s: string, i: nat, j: nat, k: nat, name: string)
    requires i <= j && j + 1 < k && k + |name| <= |s|
    requires forall p :: i <= p < j ==> IsSpace(s[p])
    requires s[j] == '-'
    requires forall p :: j < p < k ==> IsSpace(s[p])
    requires |name| > 0 && !IsSpace(name[0]) && OccursAt(s, name, k)
    requires k + |name| == |s| || IsSpace(s[k + |name|])
    ensures var n := k + |name|;
            DashNameMatch(s, i, name) == Some((j, n, if n == |s| then n else n + 1))
  {
    assert s[k] == s[k..k + |name|][0];
    SkipSpacesTo(s, i, j);
    SkipSpacesTo(s, j + 1, k);
  }

  /**
    Pattern 3 at a line start `i`: whitespace up to a dash at `j`, at least one
    whitespace character, the old name at `k`, then whitespace or the end of
    the text. The leading whitespace and the boundary are kept around the new
    path, and scanning resumes after the boundary.
   */
  lemma DashNameRewritesAt(s: string, m: Mapping, i: nat, j: nat, k: nat)
    requires WellFormed(m)
    requires i <= j && j + 1 < k && k + |m.oldName| <= |s| && AtLineStart(s, i)
    requires forall p :: i <= p < j ==> IsSpace(s[p])
    requires s[j] == '-'
    requires forall p :: j < p < k ==> IsSpace(s[p])
    requires OccursAt(s, m.oldName, k)
    requires k + |m.oldName| == |s| || IsSpace(s[k + |m.oldName|])
    ensures var n := k + |m.oldName|;
            var e := if n == |s| then n else n + 1;
            SubDashName(s, i, m) == s[i..j] + "- " + NewPath(m) + s[n..e] + SubDashName(s, e, m)
  {
    DashNameMatchesAt(s, i, j, k, m.oldName);
  }

  // ---------------------------------------------------------------------
  // One table entry, the whole table, one file
  // ---------------------------------------------------------------------

  /** The three substitutions of one table entry, in the order the script applies them. */
  function Step(m: Mapping, s: string): string
  {
    var afterTicks := Replace(s, Tick(m.oldName), Tick(NewPath(m)));
    var afterTickItems := SubDashTick(afterTicks, 0, m);
    SubDashName(afterTickItems, 0, m)
  }

  /** The content after folding the entries of `ms` over `s` in order. */
  function Rewrite(s: string, ms: seq<Mapping>): string
    decreases |ms|
  {
    if |ms| == 0 then s else Rewrite(Step(ms[0], s), ms[1..])
  }

  /** For a well-formed entry, a step is pattern 1 followed by pattern 3. */
  lemma StepSkipsPatternTwo(m: Mapping, s: string)
    requires WellFormed(m)
    ensures Step(m, s) == SubDashName(Replace(s, Tick(m.oldName), Tick(NewPath(m))), 0, m)
  {
    PatternTwoNeverFires(s, m);
  }

  /** The text contains one of the three forms an entry rewrites. */
  ghost predicate HasMappedForm(s: string, m: Mapping)
  {
    || (exists j: nat :: OccursAt(s, Tick(m.oldName), j))
    || (exists i: nat :: i <= |s| && AtLineStart(s, i) && DashTickMatch(s, i, m.oldName).Some?)
    || (exists i: nat :: i <= |s| && AtLineStart(s, i) && DashNameMatch(s, i, m.oldName).Some?)
  }

  lemma StepWithoutFormIsIdentity(m: Mapping, s: string)
    requires !HasMappedForm(s, m)
    ensures Step(m, s) == s
  {
    ReplaceWithoutOccurrence(s, Tick(m.oldName), Tick(NewPath(m)));
    SubDashTickIdentity(s, 0, m);
    SubDashNameIdentity(s, 0, m);
  }

  /** A text holding none of the mapped forms comes out of the whole table unchanged. */
  lemma {:induction false} RewriteWithoutFormsIsIdentity(s: string, ms: seq<Mapping>)
    requires forall m :: m in ms ==> !HasMappedForm(s, m)
    ensures Rewrite(s, ms) == s
    decreases |ms|
  {
    if |ms| > 0 {
      StepWithoutFormIsIdentity(ms[0], s);
      RewriteWithoutFormsIsIdentity(s, ms[1..]);
    }
  }

  /** A one-line text that starts with a backtick holds no list item. */
  lemma NoListItemAfterTick(t: string, m: Mapping)
    requires |t| > 0 && t[0] == '`' && NoSpace(t)
    ensures SubDashTick(t, 0, m) == t && SubDashName(t, 0, m) == t
  {
    SubDashTickIdentity(t, 0, m);
    SubDashNameIdentity(t, 0, m);
  }

  /** `x` between two backticked copies of `y`: one line, starting with a backtick. */
  lemma FramedIsOneLine(y: string, x: string)
    requires NoSpace(x) && NoSpace(y)
    ensures var t := Tick(y) + x + Tick(y);
            t[0] == '`' && NoSpace(t)
  {
    var t := Tick(y) + x + Tick(y);
    forall i | 0 <= i < |t| ensures !IsSpace(t[i]) {
      if i == 0 || i == |y| + 1 || i == |y| + 2 + |x| || i == |t| - 1 {
      } else if i <= |y| {
        assert t[i] == y[i - 1];
      } else if i < |y| + 2 + |x| {
        assert t[i] == x[i - |y| - 2];
      } else {
        assert t[i] == y[i - |y| - 3 - |x|];
      }
    }
  }

  /** A text shorter than the pattern is returned unchanged. */
  lemma ReplaceShort(s: string, pat: string, rep: string)
    requires |pat| > 0
    ensures |s| < |pat| ==> Replace(s, pat, rep) == s
  {
  }

  /** A rewritten text holds an occurrence of the pattern only if the text is at least as long as the pattern. */
  lemma OccurrenceNeedsLongText(s: string, pat: string, rep: string, j: nat)
    requires |pat| > 0
    ensures OccursAt(Replace(s, pat, rep), pat, j) ==> |s| >= |pat|
  {
    ReplaceShort(s, pat, rep);
  }

  /** `s.replace` at a match: the replacement, then the rest of the text. */
  lemma ReplaceAtMatch(s: string, pat: string, rep: string)
    requires 0 < |pat| <= |s| && s[..|pat|] == pat
    ensures Replace(s, pat, rep) == rep + Replace(s[|pat|..], pat, rep)
  {
  }

  /** A match with backtick-free text between two matches: both are replaced, the text is kept. */
  lemma ReplaceFramed(pat: string, rep: string, mid: string)
    requires |pat| > 0 && pat[0] == '`' && NoTick(mid)
    ensures Replace(pat + mid + pat, pat, rep) == rep + mid + rep
  {
    var s := pat + mid + pat;
    var tail := mid + pat;
    assert s[..|pat|] == pat && s[|pat|..] == tail;
    ReplaceAtMatch(s, pat, rep);
    assert tail[..|mid|] == mid && tail[|mid|..] == pat;
    ReplaceCopiesTicklessInput(tail, pat, rep, |mid|);
    assert pat[..|pat|] == pat && pat[|pat|..] == [];
    ReplaceAtMatch(pat, pat, rep);
    assert Replace([], pat, rep) == [];
    assert rep + (mid + (rep + [])) == rep + mid + rep;
  }

  /** Pattern 1 on "`old`old`old`" rewrites the two outer references only. */
  lemma FirstPassOnFramedName(name: string, np: string)
    requires |name| > 0 && NoTick(name)
    ensures Replace(Tick(name) + name + Tick(name), Tick(name), Tick(np)) == Tick(np) + name + Tick(np)
  {
    ReplaceFramed(Tick(name), Tick(np), name);
  }

  /** `s.replace` where the text does not start with a match: the first character, then the rest. */
  lemma ReplaceAtMiss(s: string, pat: string, rep: string)
    requires 0 < |pat| <= |s| && s[..|pat|] != pat
    ensures Replace(s, pat, rep) == [s[0]] + Replace(s[1..], pat, rep)
  {
  }

  /** Pattern 1 does not match at the start of "`new_path`old`new_path`": the first backtick is copied. */
  lemma SecondPassCopiesFirstTick(name: string, np: string)
    requires Swappable(name, np)
    ensures Replace(Tick(np) + name + Tick(np), Tick(name), Tick(np))
         == "`" + Replace(np + Tick(name) + (np + "`"), Tick(name), Tick(np))
  {
    var pat, rep := Tick(name), Tick(np);
    var s := rep + name + rep;
    assert s[..|pat|][1] != pat[1] by {
      assert s[1] == np[0] && pat[1] == name[0];
    }
    ReplaceAtMiss(s, pat, rep);
    FrameAfterFirstTick(np, name);
  }

  /** "`a`b`a`" without its first character is "a`b`a`". */
  lemma FrameAfterFirstTick(a: string, b: string)
    ensures (Tick(a) + b + Tick(a))[1..] == a + Tick(b) + (a + "`")
  {
    var s := Tick(a) + b + Tick(a);
    var r := a + Tick(b) + (a + "`");
    assert |s[1..]| == |r|;
    forall i | 0 <= i < |r| ensures s[1..][i] == r[i] {
      if i < |a| {
        assert s[1..][i] == a[i];
      } else if i == |a| || i == |a| + |b| + 1 || i == |r| - 1 {
      } else if i <= |a| + |b| {
        assert s[1..][i] == b[i - |a| - 1];
      } else {
        assert s[1..][i] == a[i - |a| - |b| - 2];
      }
    }
  }

  /** Backtick-free text and a closing backtick hold no match and are copied. */
  lemma ReplaceCopiesClosing(np: string, pat: string, rep: string)
    requires NoTick(np) && |pat| > 1 && pat[0] == '`'
    ensures Replace(np + "`", pat, rep) == np + "`"
  {
    var close := np + "`";
    assert close[..|np|] == np && close[|np|..] == "`";
    ReplaceCopiesTicklessInput(close, pat, rep, |np|);
  }

  /** Pattern 1 on "`new_path`old`new_path`" rewrites the middle name, which now sits between backticks. */
  lemma SecondPassOnFramedName(name: string, np: string)
    requires Swappable(name, np)
    ensures Replace(Tick(np) + name + Tick(np), Tick(name), Tick(np)) == Tick(np) + np + Tick(np)
  {
    var pat, rep := Tick(name), Tick(np);
    SecondPassCopiesFirstTick(name, np);
    ReplaceRewritesReference(np, np + "`", name, np);
    ReplaceCopiesClosing(np, pat, rep);
    assert "`" + (np + rep + (np + "`")) == rep + np + rep;
  }

  /**
    One entry's step is not idempotent: "`old`old`old`" becomes
    "`new_path`old`new_path`", whose middle name now sits between two
    backticks, so a second pass of the same entry rewrites it as well.
   */
  lemma StepIsNotIdempotent(m: Mapping)
    requires WellFormed(m)
    ensures var name, rep := m.oldName, Tick(NewPath(m));
            && Step(m, Tick(name) + name + Tick(name)) == rep + name + rep
            && Step(m, rep + name + rep) == rep + NewPath(m) + rep
            && Step(m, Step(m, Tick(name) + name + Tick(name))) != Step(m, Tick(name) + name + Tick(name))
  {
    var name, np := m.oldName, NewPath(m);
    NewPathShape(m);
    FirstPassOnFramedName(name, np);
    FramedIsOneLine(np, name);
    NoListItemAfterTick(Tick(np) + name + Tick(np), m);
    SecondPassOnFramedName(name, np);
    FramedIsOneLine(np, np);
    NoListItemAfterTick(Tick(np) + np + Tick(np), m);
    var t1, t2 := Tick(np) + name + Tick(np), Tick(np) + np + Tick(np);
    assert t2[|np| + 2] == np[0] != name[0] == t1[|np| + 2];
  }

  /** The loop of `update_workflow_file`: reassign `content` once per table entry. */
  method RewriteContent(content: string, table: seq<Mapping>) returns (r: string)
    ensures r == Rewrite(content, table)
  {
    r := content;
    var i := 0;
    while i < |table|
      invariant 0 <= i <= |table|
      invariant Rewrite(r, table[i..]) == Rewrite(content, table)
    {
      var m := table[i];
      assert table[i..][1..] == table[i + 1..];
      r := Replace(r, Tick(m.oldName), Tick(NewPath(m)));
      r := SubDashTick(r, 0, m);
      r := SubDashName(r, 0, m);
      i := i + 1;
    }
  }

  /**
    A file on disk as `open` in text mode presents it: the decoded text with
    universal newlines (CRLF and a lone CR read as LF), and whether reading
    and writing it succeed.
   */
  datatype Document = Document(text: string, readable: bool, writable: bool)

  /** Whether `update_workflow_file` reports the document as updated. */
  predicate WouldUpdate(doc: Document, table: seq<Mapping>)
  {
    doc.readable && doc.writable && Rewrite(doc.text, table) != doc.text
  }

  /** The document after `update_workflow_file`. */
  function AfterUpdate(doc: Document, table: seq<Mapping>): Document
  {
    if WouldUpdate(doc, table) then doc.(text := Rewrite(doc.text, table)) else doc
  }

  /**
    `update_workflow_file`: true iff the rewritten content differs from the
    original and is written back; a failed read or write is caught and
    reported as false, leaving the document as it was.
   */
  method UpdateWorkflowFile(doc: Document, table: seq<Mapping>) returns (updated: bool, after: Document)
    ensures updated <==> doc.readable && doc.writable && Rewrite(doc.text, table) != doc.text
    ensures updated ==> after == doc.(text := Rewrite(doc.text, table))
    ensures !updated ==> after == doc
  {
    if !doc.readable {
      return false, doc;
    }
    var content := RewriteContent(doc.text, table);
    if content != doc.text {
      if !doc.writable {
        return false, doc;
      }
      return true, doc.(text := content);
    }
    return false, doc;
  }

  /** A document with none of the mapped forms is left alone and reported as not updated. */
  lemma UntouchedDocumentNotUpdated(doc: Document, table: seq<Mapping>)
    requires forall m :: m in table ==> !HasMappedForm(doc.text, m)
    ensures !WouldUpdate(doc, table) && AfterUpdate(doc, table) == doc
  {
    RewriteWithoutFormsIsIdentity(doc.text, table);
  }

  // ---------------------------------------------------------------------
  // main(): argument check, file selection, sorted processing, counting
  // ---------------------------------------------------------------------

  predicate EndsWith(s: string, suffix: string)
  {
    |suffix| <= |s| && s[|s| - |suffix|..] == suffix
  }

  /** `commands_dir.glob("*.md")` minus `add-feature.md`. */
  predicate IsWorkflowDoc(name: string)
  {
    EndsWith(name, ".md") && name != "add-feature.md"
  }

  predicate LexLt(a: string, b: string)
  {
    LexLe(a, b) && a != b
  }

  /** `sorted(...)` of a set of file names: strictly increasing, same elements. */
  method SortNames(names: set<string>) returns (r: seq<string>)
    ensures forall i, j :: 0 <= i < j < |r| ==> LexLt(r[i], r[j])
    ensures forall n :: n in r <==> n in names
    ensures |r| == |names|
  {
    r := [];
    var rest := names;
    while rest != {}
      invariant rest <= names
      invariant forall n :: n in names <==> n in r || n in rest
      invariant forall n :: n in r ==> n !in rest
      invariant |r| + |rest| == |names|
      invariant forall i, j :: 0 <= i < j < |r| ==> LexLt(r[i], r[j])
      invariant forall i, n :: 0 <= i < |r| && n in rest ==> LexLt(r[i], n)
      decreases rest
    {
      var least :| least in rest;
      var todo := rest - {least};
      LexLeReflexive(least);
      while todo != {}
        invariant todo <= rest && least in rest
        invariant forall n :: n in rest && n !in todo ==> LexLe(least, n)
        decreases todo
      {
        var x :| x in todo;
        LexLeTotal(least, x);
        if !LexLe(least, x) {
          LexLeReflexive(x);
          forall n | n in rest && n !in todo && n != x ensures LexLe(x, n) {
            LexLeTransitive(x, least, n);
          }
          least := x;
        }
        todo := todo - {x};
      }
      forall n | n in rest - {least} ensures LexLt(least, n) {
        if least == n {
        }
      }
      r := r + [least];
      rest := rest - {least};
    }
  }

  /** The number of files reported as updated. */
  function CountUpdated(report: seq<(string, bool)>): (n: nat)
    ensures n <= |report|
  {
    if |report| == 0 then 0
    else CountUpdated(report[..|report| - 1]) + (if report[|report| - 1].1 then 1 else 0)
  }

  /** The directory after the run: every selected document is passed through `update_workflow_file`. */
  function DirectoryAfter(dir: map<string, Document>, table: seq<Mapping>): map<string, Document>
  {
    map n | n in dir :: if IsWorkflowDoc(n) then AfterUpdate(dir[n], table) else dir[n]
  }

  /** The directory once the first `i` listed files have been passed through `update_workflow_file`. */
  function UpdatedUpTo(dir: map<string, Document>, files: seq<string>, i: nat, table: seq<Mapping>): map<string, Document>
    requires i <= |files|
  {
    map n | n in dir :: if n in files[..i] then AfterUpdate(dir[n], table) else dir[n]
  }

  /** Passing one more listed file through `update_workflow_file` updates that file's entry only. */
  lemma UpdatedUpToStep(dir: map<string, Document>, files: seq<string>, i: nat, table: seq<Mapping>)
    requires i < |files| && files[i] in dir && files[i] !in files[..i]
    ensures UpdatedUpTo(dir, files, i + 1, table)
         == UpdatedUpTo(dir, files, i, table)[files[i] := AfterUpdate(UpdatedUpTo(dir, files, i, table)[files[i]], table)]
  {
    assert files[..i + 1] == files[..i] + [files[i]];
  }

  /**
    The loop of `main()`: each listed file in turn is passed through
    `update_workflow_file`, its result reported, and the updated ones counted.
   */
  method UpdateFiles(dir: map<string, Document>, files: seq<string>, table: seq<Mapping>)
    returns (report: seq<(string, bool)>, updatedCount: nat, after: map<string, Document>)
    requires forall k :: 0 <= k < |files| ==> files[k] in dir
    requires forall i, j :: 0 <= i < j < |files| ==> files[i] != files[j]
    ensures |report| == |files|
    ensures forall k :: 0 <= k < |files| ==> report[k] == (files[k], WouldUpdate(dir[files[k]], table))
    ensures updatedCount == CountUpdated(report)
    ensures after == map n | n in dir :: if n in files then AfterUpdate(dir[n], table) else dir[n]
  {
    after := dir;
    report := [];
    updatedCount := 0;
    var i := 0;
    assert files[..0] == [];
    while i < |files|
      invariant 0 <= i <= |files| && |report| == i
      invariant forall k :: 0 <= k < i ==> report[k] == (files[k], WouldUpdate(dir[files[k]], table))
      invariant updatedCount == CountUpdated(report)
      invariant after == UpdatedUpTo(dir, files, i, table)
    {
      var name := files[i];
      assert name !in files[..i];
      UpdatedUpToStep(dir, files, i, table);
      var updated, doc := UpdateWorkflowFile(after[name], table);
      after := after[name := doc];
      var extended := report + [(name, updated)];
      assert extended[..i] == report;
      report := extended;
      if updated {
        updatedCount := updatedCount + 1;
      }
      i := i + 1;
    }
    assert files[..i] == files;
  }

  /**
    `main()` with the mapping table as a parameter: exit status 1 without a
    directory argument or when it is not a directory; otherwise every
    selected file, in sorted order, is reported with its result, and the
    count of updated files is returned.
   */
  method RunWithTable(args: seq<string>, dirs: map<string, map<string, Document>>, table: seq<Mapping>)
    returns (exitCode: int, report: seq<(string, bool)>, updatedCount: nat, dirsAfter: map<string, map<string, Document>>)
    ensures exitCode == 1 <==> |args| == 0 || args[0] !in dirs
    ensures exitCode == 0 || exitCode == 1
    ensures exitCode == 1 ==> report == [] && updatedCount == 0 && dirsAfter == dirs
    ensures exitCode == 0 ==>
      && (forall n :: (exists i :: 0 <= i < |report| && report[i].0 == n) <==> n in dirs[args[0]] && IsWorkflowDoc(n))
      && (forall i, j :: 0 <= i < j < |report| ==> LexLt(report[i].0, report[j].0))
      && (forall i :: 0 <= i < |report| ==> report[i].1 == WouldUpdate(dirs[args[0]][report[i].0], table))
      && updatedCount == CountUpdated(report) && updatedCount <= |report|
      && dirsAfter == dirs[args[0] := DirectoryAfter(dirs[args[0]], table)]
  {
    if |args| == 0 || args[0] !in dirs {
      return 1, [], 0, dirs;
    }
    var dir := dirs[args[0]];
    var files := SortNames(set n | n in dir && IsWorkflowDoc(n));
    forall k | 0 <= k < |files| ensures files[k] in dir && IsWorkflowDoc(files[k]) {
      assert files[k] in files;
    }
    var after;
    report, updatedCount, after := UpdateFiles(dir, files, table);
    forall n ensures (exists i :: 0 <= i < |report| && report[i].0 == n) <==> n in dir && IsWorkflowDoc(n) {
      if n in dir && IsWorkflowDoc(n) {
        assert n in files;
        var k :| 0 <= k < |files| && files[k] == n;
        assert report[k].0 == n;
      }
    }
    assert after == DirectoryAfter(dir, table);
    return 0, report, updatedCount, dirs[args[0] := after];
  }

  /** `main()` with the script's own mapping table. */
  method RunScript(args: seq<string>, dirs: map<string, map<string, Document>>)
    returns (exitCode: int, report: seq<(string, bool)>, updatedCount: nat, dirsAfter: map<string, map<string, Document>>)
    ensures exitCode == 1 <==> |args| == 0 || args[0] !in dirs
    ensures exitCode == 0 || exitCode == 1
    ensures exitCode == 1 ==> report == [] && updatedCount == 0 && dirsAfter == dirs
    ensures exitCode == 0 ==>
      && (forall n :: (exists i :: 0 <= i < |report| && report[i].0 == n) <==> n in dirs[args[0]] && IsWorkflowDoc(n))
      && (forall i, j :: 0 <= i < j < |report| ==> LexLt(report[i].0, report[j].0))
      && (forall i :: 0 <= i < |report| ==> report[i].1 == WouldUpdate(dirs[args[0]][report[i].0], FileMappings))
      && updatedCount == CountUpdated(report) && updatedCount <= |report|
      && dirsAfter == dirs[args[0] := DirectoryAfter(dirs[args[0]], FileMappings)]
  {
    exitCode, report, updatedCount, dirsAfter := RunWithTable(args, dirs, FileMappings);
  }

  /** A row of the table ("architecture.md" under "design") on which a second pass still changes the text. */
  lemma ArchitectureRowIsNotIdempotent()
    ensures var m := Mapping("architecture.md", "design", "architecture.md");
            var s := Tick(m.oldName) + m.oldName + Tick(m.oldName);
            Step(m, Step(m, s)) != Step(m, s)
  {
    var m := Mapping("architecture.md", "design", "architecture.md");
    ArchitectureRowWellFormed();
    StepIsNotIdempotent(m);
  }

  lemma ArchitectureRowWellFormed()
    ensures WellFormed(Mapping("architecture.md", "design", "architecture.md"))
  {
    PlainNameIsClean("architecture.md");
    PlainNameIsClean("design");
  }

  /** Lower-case letters, digits, '.', '-' and '_': the characters of the table's names. */
  predicate IsPlain(c: char)
  {
    ('a' <= c <= 'z') || ('0' <= c <= '9') || c == '.' || c == '-' || c == '_'
  }

  lemma PlainNameIsClean(s: string)
    requires forall i :: 0 <= i < |s| ==> IsPlain(s[i])
    ensures NoTick(s) && NoSpace(s)
  {
  }
}

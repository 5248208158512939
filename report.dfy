/**
 * Report aggregation (src/report.rs): partition the check results by status, pick the
 * first Error as the probable cause, summarise, and build the ordered fix list in which
 * only warning-derived entries are deduplicated.
 */
module Report {
  import opened Options
  import opened Text
  import opened Types

  /** The checks with status `s`, in list order (the `errors` and `warnings` vectors). */
  function WithStatus(checks: seq<CheckResult>, s: CheckStatus): (r: seq<CheckResult>)
    ensures |r| <= |checks|
    ensures forall k :: 0 <= k < |r| ==> r[k].status == s
  {
    if checks == [] then []
    else (if checks[0].status == s then [checks[0]] else []) + WithStatus(checks[1..], s)
  }

  /** The filter is empty exactly when no check has the status. */
  lemma {:induction false} WithStatusEmpty(checks: seq<CheckResult>, s: CheckStatus)
    ensures WithStatus(checks, s) == [] <==> forall i :: 0 <= i < |checks| ==> checks[i].status != s
  {
    if checks != [] {
      WithStatusEmpty(checks[1..], s);
      if WithStatus(checks, s) == [] {
        forall i | 0 <= i < |checks| ensures checks[i].status != s {
          if i > 0 { assert checks[i] == checks[1..][i - 1]; }
        }
      }
    }
  }

  /** Filtering keeps exactly the checks of the given status. */
  lemma {:induction false} WithStatusMembers(checks: seq<CheckResult>, s: CheckStatus)
    ensures forall c :: c in WithStatus(checks, s) <==> c in checks && c.status == s
  {
    if checks != [] {
      WithStatusMembers(checks[1..], s);
      assert checks == [checks[0]] + checks[1..];
    }
  }

  /** Number of checks with status `s`, counted on the list of statuses. */
  function CountStatus(checks: seq<CheckResult>, s: CheckStatus): nat {
    multiset(seq(|checks|, i requires 0 <= i < |checks| => checks[i].status))[s]
  }

  /** The message of the first Error; none when no check failed. */
  function ProbableCause(checks: seq<CheckResult>): Option<string> {
    var errors := WithStatus(checks, Error);
    if errors == [] then None else Some(errors[0].message)
  }

  const HEALTHY_SUMMARY: string :=
    "Audio system appears healthy. " + "If you still have no sound, " + "the issue may be application-specific."
  /** The summary when there are warnings but no errors. */
  function WarningsSummary(warnings: nat): (r: string)
    ensures r != [] && r[0] == 'N'
  {
    "No critical issues found, but " + NatToString(warnings) + " warning(s) detected that may affect audio."
  }

  /** The summary when there are errors; it names the probable cause. */
  function ErrorsSummary(errors: nat, warnings: nat, cause: string): (r: string)
    ensures r != [] && r[0] == 'F' && EndsWith(r, cause)
  {
    "Found " + NatToString(errors) + " error(s) and " + NatToString(warnings)
    + " warning(s). Most likely cause: " + cause
  }

  /** The one-sentence summary of the report. */
  function Summary(checks: seq<CheckResult>): string {
    var errors := WithStatus(checks, Error);
    var warnings := WithStatus(checks, Warning);
    if errors == [] && warnings == [] then HEALTHY_SUMMARY
    else if errors == [] then WarningsSummary(|warnings|)
    else ErrorsSummary(|errors|, |warnings|, match ProbableCause(checks) case Some(m) => m case None => "unknown")
  }

  /** The fix line for a check with a suggestion: "message: suggestion". */
  function FixText(c: CheckResult): string
    requires c.suggestion.Some?
  {
    c.message + ": " + c.suggestion.value
  }

  /** The fix lines of the errors, in order, one per error with a suggestion. */
  function ErrorFixes(errors: seq<CheckResult>): seq<string> {
    if errors == [] then []
    else
      var last := errors[|errors| - 1];
      ErrorFixes(errors[..|errors| - 1]) + (if last.suggestion.Some? then [FixText(last)] else [])
  }

  /** One warning's contribution: its fix line, unless that line is already listed. */
  function AddWarningFix(fixes: seq<string>, w: CheckResult): seq<string> {
    if w.suggestion.Some? && FixText(w) !in fixes then fixes + [FixText(w)] else fixes
  }

  /** The fix list after adding the warnings' fix lines, in order, to `fixes`. */
  function AddWarningFixes(fixes: seq<string>, warnings: seq<CheckResult>): seq<string> {
    if warnings == [] then fixes
    else AddWarningFix(AddWarningFixes(fixes, warnings[..|warnings| - 1]), warnings[|warnings| - 1])
  }

  /** The suggested fixes: every error's fix line, then the new warning fix lines. */
  function SuggestedFixes(checks: seq<CheckResult>): seq<string> {
    AddWarningFixes(ErrorFixes(WithStatus(checks, Error)), WithStatus(checks, Warning))
  }

  /** The first loop of `build_report`: one fix line per error with a suggestion. */
  method CollectErrorFixes(errors: seq<CheckResult>) returns (fixes: seq<string>)
    ensures fixes == ErrorFixes(errors)
  {
    fixes := [];
    var i := 0;
    while i < |errors|
      invariant 0 <= i <= |errors|
      invariant fixes == ErrorFixes(errors[..i])
    {
      assert errors[..i + 1][..i] == errors[..i];
      assert ErrorFixes(errors[..i + 1])
        == ErrorFixes(errors[..i]) + (if errors[i].suggestion.Some? then [FixText(errors[i])] else []);
      if errors[i].suggestion.Some? {
        fixes := fixes + [FixText(errors[i])];
      }
      i := i + 1;
    }
    assert errors[..i] == errors;
  }

  /** The second loop of `build_report`: a warning's fix line is added unless already listed. */
  method CollectWarningFixes(errorFixes: seq<string>, warnings: seq<CheckResult>) returns (fixes: seq<string>)
    ensures fixes == AddWarningFixes(errorFixes, warnings)
  {
    fixes := errorFixes;
    var j := 0;
    while j < |warnings|
      invariant 0 <= j <= |warnings|
      invariant fixes == AddWarningFixes(errorFixes, warnings[..j])
    {
      assert warnings[..j + 1][..j] == warnings[..j];
      assert AddWarningFixes(errorFixes, warnings[..j + 1])
        == AddWarningFix(AddWarningFixes(errorFixes, warnings[..j]), warnings[j]);
      var w := warnings[j];
      if w.suggestion.Some? {
        var fix := FixText(w);
        if fix !in fixes {
          fixes := fixes + [fix];
        }
      }
      j := j + 1;
    }
    assert warnings[..j] == warnings;
  }

  /** `build_report`. */
  method BuildReport(checks: seq<CheckResult>) returns (report: DiagnosticReport)
    ensures report.checks == checks
    ensures report.probableCause == ProbableCause(checks)
    ensures report.summary == Summary(checks)
    ensures report.suggestedFixes == SuggestedFixes(checks)
  {
    var errors := WithStatus(checks, Error);
    var warnings := WithStatus(checks, Warning);
    var probableCause := if errors == [] then None else Some(errors[0].message);
    var fixes := CollectErrorFixes(errors);
    fixes := CollectWarningFixes(fixes, warnings);
    var summary := Summary(checks);
    report := DiagnosticReport(checks, summary, probableCause, fixes);
  }

  // ---------------------------------------------------------------------------------
  // Probable cause and summary

  /** The cause is absent exactly when no check is an Error. */
  lemma NoCauseIffNoError(checks: seq<CheckResult>)
    ensures ProbableCause(checks) == None <==> forall i :: 0 <= i < |checks| ==> checks[i].status != Error
  {
    WithStatusEmpty(checks, Error);
  }

  /** The cause is the message of the first Error in list order, not of a later one. */
  lemma {:induction false} ProbableCauseIsFirstError(checks: seq<CheckResult>, i: nat)
    requires i < |checks| && checks[i].status == Error
    requires forall j :: 0 <= j < i ==> checks[j].status != Error
    ensures ProbableCause(checks) == Some(checks[i].message)
  {
    if i > 0 {
      ProbableCauseIsFirstError(checks[1..], i - 1);
      assert WithStatus(checks, Error) == WithStatus(checks[1..], Error);
    }
  }

  /** Counting by filtering agrees with counting statuses. */
  lemma {:induction false} WithStatusCount(checks: seq<CheckResult>, s: CheckStatus)
    ensures |WithStatus(checks, s)| == CountStatus(checks, s)
  {
    if checks != [] {
      WithStatusCount(checks[1..], s);
      var all := seq(|checks|, i requires 0 <= i < |checks| => checks[i].status);
      var rest := seq(|checks| - 1, i requires 0 <= i < |checks| - 1 => checks[1..][i].status);
      assert all == [checks[0].status] + rest;
    }
  }

  /** The healthy sentence is used exactly when every check is Ok. */
  lemma SummaryHealthyIff(checks: seq<CheckResult>)
    ensures Summary(checks) == HEALTHY_SUMMARY <==> forall i :: 0 <= i < |checks| ==> checks[i].status == Ok
  {
    WithStatusEmpty(checks, Error);
    WithStatusEmpty(checks, Warning);
    if !(forall i :: 0 <= i < |checks| ==> checks[i].status == Ok) {
      SummaryNotHealthy(checks);
    }
  }

  lemma SummaryNotHealthy(checks: seq<CheckResult>)
    requires WithStatus(checks, Error) != [] || WithStatus(checks, Warning) != []
    ensures Summary(checks)[0] != HEALTHY_SUMMARY[0]
  {
  }

  /** With warnings and no errors the summary carries the number of Warnings. */
  lemma SummaryCountsWarnings(checks: seq<CheckResult>)
    requires CountStatus(checks, Error) == 0 && CountStatus(checks, Warning) > 0
    ensures Summary(checks) == WarningsSummary(CountStatus(checks, Warning))
  {
    WithStatusCount(checks, Error);
    WithStatusCount(checks, Warning);
  }

  /** With an error the summary carries both counts and ends with the probable cause. */
  lemma SummaryNamesCause(checks: seq<CheckResult>, i: nat)
    requires i < |checks| && checks[i].status == Error
    requires forall j :: 0 <= j < i ==> checks[j].status != Error
    ensures Summary(checks)
      == ErrorsSummary(CountStatus(checks, Error), CountStatus(checks, Warning), checks[i].message)
    ensures EndsWith(Summary(checks), checks[i].message)
  {
    ProbableCauseIsFirstError(checks, i);
    WithStatusCount(checks, Error);
    WithStatusCount(checks, Warning);
    assert WithStatus(checks, Error) != [];
  }

  // ---------------------------------------------------------------------------------
  // The fix list

  function CountSuggested(cs: seq<CheckResult>): nat {
    if cs == [] then 0 else (if cs[0].suggestion.Some? then 1 else 0) + CountSuggested(cs[1..])
  }

  /** The number of checks that could contribute a fix: not Ok, and with a suggestion. */
  function CountFixable(checks: seq<CheckResult>): nat {
    if checks == [] then 0
    else (if checks[0].status != Ok && checks[0].suggestion.Some? then 1 else 0) + CountFixable(checks[1..])
  }

  lemma {:induction false} CountSuggestedAppend(a: seq<CheckResult>, b: seq<CheckResult>)
    ensures CountSuggested(a + b) == CountSuggested(a) + CountSuggested(b)
  {
    if a != [] {
      CountSuggestedAppend(a[1..], b);
      assert (a + b)[0] == a[0];
      assert (a + b)[1..] == a[1..] + b;
    } else {
      assert a + b == b;
    }
  }

  lemma {:induction false} CountSuggestedLast(cs: seq<CheckResult>)
    requires cs != []
    ensures CountSuggested(cs)
      == CountSuggested(cs[..|cs| - 1]) + (if cs[|cs| - 1].suggestion.Some? then 1 else 0)
  {
    CountSuggestedAppend(cs[..|cs| - 1], [cs[|cs| - 1]]);
    assert cs[..|cs| - 1] + [cs[|cs| - 1]] == cs;
  }

  lemma {:induction false} FixableSplits(checks: seq<CheckResult>)
    ensures CountSuggested(WithStatus(checks, Error)) + CountSuggested(WithStatus(checks, Warning))
      == CountFixable(checks)
  {
    if checks != [] {
      FixableSplits(checks[1..]);
      var c := checks[0];
      CountSuggestedAppend(if c.status == Error then [c] else [], WithStatus(checks[1..], Error));
      CountSuggestedAppend(if c.status == Warning then [c] else [], WithStatus(checks[1..], Warning));
    }
  }

  /** Every error with a suggestion contributes its line; the lines keep the errors' order. */
  lemma {:induction false} ErrorFixesExact(errors: seq<CheckResult>)
    ensures |ErrorFixes(errors)| == CountSuggested(errors)
    ensures forall c :: c in errors && c.suggestion.Some? ==> FixText(c) in ErrorFixes(errors)
    ensures forall f :: f in ErrorFixes(errors) ==>
      exists c :: c in errors && c.suggestion.Some? && f == FixText(c)
  {
    if errors != [] {
      var init := errors[..|errors| - 1];
      ErrorFixesExact(init);
      CountSuggestedLast(errors);
      assert errors == init + [errors[|errors| - 1]];
    }
  }

  /** Adding warnings only appends: the earlier list is a prefix of the result. */
  lemma {:induction false} AddWarningFixesExtends(fixes: seq<string>, warnings: seq<CheckResult>)
    ensures |fixes| <= |AddWarningFixes(fixes, warnings)|
    ensures AddWarningFixes(fixes, warnings)[..|fixes|] == fixes
    ensures |AddWarningFixes(fixes, warnings)| <= |fixes| + CountSuggested(warnings)
  {
    if warnings != [] {
      var init := warnings[..|warnings| - 1];
      AddWarningFixesExtends(fixes, init);
      CountSuggestedLast(warnings);
      var mid := AddWarningFixes(fixes, init);
      var last := warnings[|warnings| - 1];
      assert AddWarningFixes(fixes, warnings) == AddWarningFix(mid, last);
      if last.suggestion.Some? && FixText(last) !in mid {
        assert (mid + [FixText(last)])[..|fixes|] == mid[..|fixes|];
      }
    }
  }

  /** No line added for a warning equals any line before it. */
  lemma {:induction false} AddWarningFixesFresh(fixes: seq<string>, warnings: seq<CheckResult>)
    ensures var r := AddWarningFixes(fixes, warnings);
      forall i, j :: 0 <= i < j < |r| && |fixes| <= j ==> r[i] != r[j]
  {
    if warnings != [] {
      var init := warnings[..|warnings| - 1];
      AddWarningFixesFresh(fixes, init);
      AddWarningFixesExtends(fixes, init);
      var mid := AddWarningFixes(fixes, init);
      var last := warnings[|warnings| - 1];
      if last.suggestion.Some? && FixText(last) !in mid {
        var r := mid + [FixText(last)];
        forall i, j | 0 <= i < j < |r| && |fixes| <= j ensures r[i] != r[j] {
          if j == |mid| {
            assert r[i] == mid[i];
          }
        }
      }
    }
  }

  /** Every warning's fix line ends up in the list; every added line is a warning's. */
  lemma {:induction false} AddWarningFixesCover(fixes: seq<string>, warnings: seq<CheckResult>)
    ensures forall w :: w in warnings && w.suggestion.Some? ==> FixText(w) in AddWarningFixes(fixes, warnings)
    ensures forall f :: f in AddWarningFixes(fixes, warnings) ==>
      f in fixes || exists w :: w in warnings && w.suggestion.Some? && f == FixText(w)
  {
    if warnings != [] {
      var init := warnings[..|warnings| - 1];
      AddWarningFixesCover(fixes, init);
      assert warnings == init + [warnings[|warnings| - 1]];
    }
  }

  /**
   * The fix list's order: the error lines come first, in order and without deduplication,
   * and no warning line repeats an earlier line.
   */
  lemma SuggestedFixesOrder(checks: seq<CheckResult>)
    ensures var errorFixes := ErrorFixes(WithStatus(checks, Error));
      var r := SuggestedFixes(checks);
      |errorFixes| <= |r| && r[..|errorFixes|] == errorFixes
      && (forall i, j :: 0 <= i < j < |r| && |errorFixes| <= j ==> r[i] != r[j])
  {
    var errorFixes := ErrorFixes(WithStatus(checks, Error));
    AddWarningFixesExtends(errorFixes, WithStatus(checks, Warning));
    AddWarningFixesFresh(errorFixes, WithStatus(checks, Warning));
  }

  /** There are at most as many fix lines as non-Ok checks with a suggestion. */
  lemma SuggestedFixesBound(checks: seq<CheckResult>)
    ensures |SuggestedFixes(checks)| <= CountFixable(checks)
  {
    var errors := WithStatus(checks, Error);
    AddWarningFixesExtends(ErrorFixes(errors), WithStatus(checks, Warning));
    ErrorFixesExact(errors);
    FixableSplits(checks);
  }

  /** Every fix line comes from a non-Ok check with a suggestion, so Ok checks never contribute. */
  lemma SuggestedFixesFromChecks(checks: seq<CheckResult>)
    ensures forall f :: f in SuggestedFixes(checks) ==>
      exists c :: c in checks && c.status != Ok && c.suggestion.Some? && f == FixText(c)
  {
    var errors := WithStatus(checks, Error);
    AddWarningFixesCover(ErrorFixes(errors), WithStatus(checks, Warning));
    ErrorFixesExact(errors);
    WithStatusMembers(checks, Error);
    WithStatusMembers(checks, Warning);
  }

  /** Every non-Ok check with a suggestion has its fix line in the list. */
  lemma SuggestedFixesComplete(checks: seq<CheckResult>)
    ensures forall c :: c in checks && c.status != Ok && c.suggestion.Some? ==> FixText(c) in SuggestedFixes(checks)
  {
    var errors := WithStatus(checks, Error);
    var errorFixes := ErrorFixes(errors);
    AddWarningFixesExtends(errorFixes, WithStatus(checks, Warning));
    AddWarningFixesCover(errorFixes, WithStatus(checks, Warning));
    ErrorFixesExact(errors);
    WithStatusMembers(checks, Error);
    WithStatusMembers(checks, Warning);
    var r := SuggestedFixes(checks);
    forall c | c in checks && c.status != Ok && c.suggestion.Some? ensures FixText(c) in r {
      if c.status == Error {
        assert FixText(c) in errorFixes;
        var k :| 0 <= k < |errorFixes| && errorFixes[k] == FixText(c);
        assert r[k] == FixText(c);
      }
    }
  }

  /** Two equal warning lines from different checks appear once; equal error lines both appear. */
  lemma DeduplicationExample(m: string, s: string)
    ensures var w := WarningResult("a", m, s);
      SuggestedFixes([w, w.(name := "b")]) == [m + ": " + s]
    ensures var e := ErrorResult("a", m, s);
      SuggestedFixes([e, e.(name := "b")]) == [m + ": " + s, m + ": " + s]
  {
    var w := WarningResult("a", m, s);
    var w2 := w.(name := "b");
    assert WithStatus([w, w2], Error) == [];
    assert WithStatus([w, w2], Warning) == [w, w2];
    assert [w, w2][..1] == [w];
    assert [w][..0] == [];
    assert ErrorFixes([]) == [];
    assert AddWarningFixes([], [w]) == [FixText(w)];
    assert AddWarningFixes([], [w, w2]) == AddWarningFix([FixText(w)], w2);
    var e := ErrorResult("a", m, s);
    var e2 := e.(name := "b");
    assert WithStatus([e, e2], Error) == [e, e2];
    assert WithStatus([e, e2], Warning) == [];
    assert [e, e2][..1] == [e];
    assert [e][..0] == [];
    assert ErrorFixes([e]) == [FixText(e)];
    assert ErrorFixes([e, e2]) == [FixText(e), FixText(e2)];
  }
}

/**
 * The vocabulary both form schemas share: where a validation issue is
 * reported, what kind it is, and the `^\d{2}:\d{2}$` clock pattern.
 */
module Schema {
  import opened Wrappers

  /** One step of an issue path as the validation library reports it: an object key or an array index. */
  datatype PathKey = Key(name: string) | Index(position: nat)

  /** The kind of check that failed: a lower bound, an upper bound, a string format, or a refinement. */
  datatype Code = TooSmall | TooBig | InvalidString | Custom

  /**
   * A validation issue at the field `path` (each form names its fields by a
   * datatype of its own). `message` is the text the schema supplies, or
   * `None` where the schema leaves the validation library's default text.
   */
  datatype Issue<P> = Issue(path: P, code: Code, message: Option<string>)

  /** The issue list `[issue]` when `failed`, otherwise no issue. */
  function ReportIf<P>(failed: bool, path: P, code: Code, message: Option<string>): seq<Issue<P>> {
    if failed then [Issue(path, code, message)] else []
  }

  /** Whether some issue in the list is reported at `path`. */
  predicate HasIssueAt<P(==)>(issues: seq<Issue<P>>, path: P) {
    exists issue :: issue in issues && issue.path == path
  }

  /** An issue is reported at a path in a concatenation exactly when one of the parts reports it. */
  lemma HasIssueAtAppend<P>(a: seq<Issue<P>>, b: seq<Issue<P>>, path: P)
    ensures HasIssueAt(a + b, path) <==> HasIssueAt(a, path) || HasIssueAt(b, path)
  {
    if HasIssueAt(a + b, path) {
      var issue :| issue in a + b && issue.path == path;
      assert issue in a || issue in b;
    }
    if HasIssueAt(a, path) {
      var issue :| issue in a && issue.path == path;
      assert issue in a + b;
    }
    if HasIssueAt(b, path) {
      var issue :| issue in b && issue.path == path;
      assert issue in a + b;
    }
  }

  /** A conditional report is at `path` exactly when it fired and is attached there. */
  lemma HasIssueAtReportIf<P>(failed: bool, at: P, code: Code, message: Option<string>, path: P)
    ensures HasIssueAt(ReportIf(failed, at, code, message), path) <==> failed && at == path
  {
    if failed && at == path {
      assert Issue(at, code, message) in ReportIf(failed, at, code, message);
    }
  }

  predicate IsDigit(c: char) {
    '0' <= c <= '9'
  }

  /**
   * The pattern `^\d{2}:\d{2}$` (no multiline flag, so `$` is the end of the
   * text): exactly two decimal digits, a colon and two decimal digits. No
   * range is checked, so "99:99" passes.
   */
  predicate IsClockText(s: string) {
    |s| == 5 && IsDigit(s[0]) && IsDigit(s[1]) && s[2] == ':' && IsDigit(s[3]) && IsDigit(s[4])
  }
}

/**
 * Deprecation notices (common/utils/deprecation.py): the message a
 * deprecated function, class or module warns with, the information the
 * decorator builds it from, and the warning the decorated callable issues
 * before running unchanged.
 */
module Deprecation {
  import opened Wrappers
  import opened Strings

  /** An issue reference: a text such as "GH-123" or a number. */
  datatype Issue = IssueText(text: string) | IssueNumber(n: int)

  /** `DeprecationInfo`. */
  datatype DeprecationInfo = DeprecationInfo(
    reason: string,
    since: Option<string>,
    removedIn: Option<string>,
    alternative: Option<string>,
    issue: Option<Issue>)

  /** `str(issue)`. */
  function IssueText(i: Issue): string
  {
    match i
    case IssueText(t) => t
    case IssueNumber(n) => IntToString(n)
  }

  /** The reason with its trailing dots replaced by exactly one. */
  function ReasonSentence(reason: string): (r: string)
    ensures EndsWith(r, ".")
    ensures |r| >= 2 ==> r[|r| - 2] != '.'
    ensures r[..|r| - 1] == RStripChar(reason, '.')
  {
    RStripChar(reason, '.') + "."
  }

  /** The "See ..." sentence for an issue, when one is given. */
  function SeeIssue(issue: Option<Issue>): string
  {
    match issue
    case Some(i) => "See " + IssueText(i) + "."
    case None => ""
  }

  /** The parts of the message, in order; each optional one only when its field is set. */
  function Parts(subject: string, info: DeprecationInfo): (r: seq<string>)
    ensures r != [] && r[0] == subject + " is deprecated."
  {
    [subject + " is deprecated."]
      + Part(Truthy(info.since), "Since " + info.since.GetOr("") + ".")
      + Part(Truthy(info.removedIn), "Will be removed in " + info.removedIn.GetOr("") + ".")
      + Part(Truthy(info.alternative), "Use " + info.alternative.GetOr("") + " instead.")
      + Part(info.issue.Some?, SeeIssue(info.issue))
      + Part(info.reason != "", ReasonSentence(info.reason))
  }

  /** `format_deprecation_message`: the parts joined by single spaces. */
  function DeprecationMessage(subject: string, info: DeprecationInfo): string
  {
    Join(Parts(subject, info), " ")
  }

  /** The loop of appends that builds the message. */
  method FormatDeprecationMessage(subject: string, info: DeprecationInfo) returns (msg: string)
    ensures msg == DeprecationMessage(subject, info)
  {
    var parts := [subject + " is deprecated."];
    ghost var spec := Parts(subject, info);
    if Truthy(info.since) {
      parts := parts + ["Since " + info.since.value + "."];
    }
    assert parts == [subject + " is deprecated."] + Part(Truthy(info.since), "Since " + info.since.GetOr("") + ".");
    if Truthy(info.removedIn) {
      parts := parts + ["Will be removed in " + info.removedIn.value + "."];
    }
    if Truthy(info.alternative) {
      parts := parts + ["Use " + info.alternative.value + " instead."];
    }
    assert parts == [subject + " is deprecated."]
      + Part(Truthy(info.since), "Since " + info.since.GetOr("") + ".")
      + Part(Truthy(info.removedIn), "Will be removed in " + info.removedIn.GetOr("") + ".")
      + Part(Truthy(info.alternative), "Use " + info.alternative.GetOr("") + " instead.");
    if info.issue.Some? {
      parts := parts + ["See " + IssueText(info.issue.value) + "."];
    }
    if info.reason != "" {
      parts := parts + [ReasonSentence(info.reason)];
    }
    assert parts == spec;
    msg := Join(parts, " ");
  }

  /** Every message starts by naming what is deprecated. */
  lemma MessageHead(subject: string, info: DeprecationInfo)
    ensures StartsWith(DeprecationMessage(subject, info), subject + " is deprecated.")
  {
    JoinHead(Parts(subject, info), " ");
  }

  /** With nothing but the subject, the message is the bare notice. */
  lemma BareMessage(subject: string, info: DeprecationInfo)
    requires !Truthy(info.since) && !Truthy(info.removedIn) && !Truthy(info.alternative)
    requires info.issue.None? && info.reason == ""
    ensures DeprecationMessage(subject, info) == subject + " is deprecated."
  {
    var head := [subject + " is deprecated."];
    assert Part(Truthy(info.since), "Since " + info.since.GetOr("") + ".") == [];
    assert Part(Truthy(info.removedIn), "Will be removed in " + info.removedIn.GetOr("") + ".") == [];
    assert Part(Truthy(info.alternative), "Use " + info.alternative.GetOr("") + " instead.") == [];
    assert Part(info.issue.Some?, SeeIssue(info.issue)) == [];
    assert Part(info.reason != "", ReasonSentence(info.reason)) == [];
    assert Parts(subject, info) == head;
    assert Join(head, " ") == head[0];
  }

  /** An issue is included whenever it is given, even the number 0, while an empty since is left out. */
  lemma IssueZeroIncluded(subject: string, since: Option<string>)
    requires !Truthy(since)
    ensures DeprecationMessage(subject, DeprecationInfo("", since, None, None, Some(IssueNumber(0))))
      == subject + " is deprecated. See 0."
  {
    var info := DeprecationInfo("", since, None, None, Some(IssueNumber(0)));
    assert IssueText(IssueNumber(0)) == "0";
    assert "See " + IssueText(IssueNumber(0)) + "." == "See 0.";
    var p := [subject + " is deprecated.", "See 0."];
    assert Parts(subject, info) == p;
    assert Join(p, " ") == p[0] + " " + Join(p[1..], " ");
  }

  /** Six parts joined by spaces. */
  lemma JoinSix(p: seq<string>)
    requires |p| == 6
    ensures Join(p, " ") == p[0] + " " + p[1] + " " + p[2] + " " + p[3] + " " + p[4] + " " + p[5]
  {
    assert Join(p[5..], " ") == p[5];
    assert Join(p[4..], " ") == p[4] + " " + p[5];
    assert Join(p[3..], " ") == p[3] + " " + (p[4] + " " + p[5]);
    assert Join(p[2..], " ") == p[2] + " " + (p[3] + " " + (p[4] + " " + p[5]));
    assert Join(p[1..], " ") == p[1] + " " + (p[2] + " " + (p[3] + " " + (p[4] + " " + p[5])));
  }

  /** A full notice: every part in order, separated by single spaces. */
  lemma FullMessage(subject: string, since: string, removedIn: string, alternative: string, issue: Issue, reason: string)
    requires since != "" && removedIn != "" && alternative != "" && reason != ""
    ensures DeprecationMessage(subject, DeprecationInfo(reason, Some(since), Some(removedIn), Some(alternative), Some(issue)))
      == (subject + " is deprecated.") + " " + ("Since " + since + ".") + " " + ("Will be removed in " + removedIn + ".")
         + " " + ("Use " + alternative + " instead.") + " " + ("See " + IssueText(issue) + ".") + " " + ReasonSentence(reason)
  {
    var info := DeprecationInfo(reason, Some(since), Some(removedIn), Some(alternative), Some(issue));
    var p := [subject + " is deprecated.", "Since " + since + ".", "Will be removed in " + removedIn + ".",
              "Use " + alternative + " instead.", "See " + IssueText(issue) + ".", ReasonSentence(reason)];
    assert Parts(subject, info) == p;
    JoinSix(p);
  }

  /** The `reason` argument: either a ready `DeprecationInfo` or a text. */
  datatype ReasonArg = GivenInfo(info: DeprecationInfo) | ReasonText(text: string)

  /** The information `deprecated` and `deprecated_module` use: a given one unchanged, else one built from the keywords. */
  function InfoFor(reason: ReasonArg, since: Option<string>, removedIn: Option<string>, alternative: Option<string>, issue: Option<Issue>): (r: DeprecationInfo)
    ensures reason.GivenInfo? ==> r == reason.info
    ensures reason.ReasonText? ==>
              r.reason == reason.text && r.since == since && r.removedIn == removedIn
              && r.alternative == alternative && r.issue == issue
  {
    match reason
    case GivenInfo(info) => info
    case ReasonText(text) => DeprecationInfo(text, since, removedIn, alternative, issue)
  }

  /** The subject of a decorated object: its `__qualname__`, else its `__name__`, else its `repr`. */
  function SubjectOf(qualname: Option<string>, name: Option<string>, repr: string): (r: string)
    ensures qualname.Some? ==> r == qualname.value
    ensures qualname.None? && name.Some? ==> r == name.value
    ensures qualname.None? && name.None? ==> r == repr
  {
    if qualname.Some? then qualname.value else if name.Some? then name.value else repr
  }

  /** The subject `deprecated_module` warns about. */
  function ModuleSubject(moduleName: string): (r: string)
    ensures StartsWith(r, "Module `") && EndsWith(r, "`")
  {
    var r := "Module `" + moduleName + "`";
    assert r[..8] == "Module `" && r[|r| - 1..] == "`";
    r
  }

  /** The warnings issued so far, in order. */
  class WarningLog {
    var issued: seq<string>

    constructor()
      ensures issued == []
    {
      issued := [];
    }

    /**
     * A call of a decorated function, or an instantiation of a decorated
     * class (whose `__init__` is the wrapped callable): one warning with the
     * notice, then the original callable with its own result.
     */
    method CallDeprecated<X, Y>(f: X -> Y, x: X, subject: string, info: DeprecationInfo) returns (y: Y)
      modifies this
      ensures y == f(x)
      ensures issued == old(issued) + [DeprecationMessage(subject, info)]
    {
      var message := FormatDeprecationMessage(subject, info);
      issued := issued + [message];
      y := f(x);
    }

    /** `deprecated_module`: one warning naming the module. */
    method WarnModule(moduleName: string, info: DeprecationInfo)
      modifies this
      ensures issued == old(issued) + [DeprecationMessage(ModuleSubject(moduleName), info)]
    {
      var message := FormatDeprecationMessage(ModuleSubject(moduleName), info);
      issued := issued + [message];
    }
  }
}

/** The on-demand diagnostic endpoint (`netlify/functions/gsc-run-now.mjs`):
    it validates the two JSON configuration values, runs the daily job, and
    on any failure answers with a diagnostic body that shows a short preview
    and the length of each value, then the error message. JSON parsing and the
    daily job are supplied by the caller, so what their messages contain is
    not modelled. */
module RunNow {
  import opened Wrappers
  import opened Text
  import opened Env
  import opened DailyJob

  const PreviewLength: nat := 40
  const EmptyPreview := "(empty)"

  function Min(a: nat, b: nat): nat
  {
    if a <= b then a else b
  }

  lemma CountBound(s: string, c: char)
    ensures Count(s, c) <= |s|
  {
    if s != [] { CountBound(s[1..], c); }
  }

  /** `preview(s, n)`: the first `n` characters with every line break written
      as the two characters `\` and `n`; the empty string is `(empty)`. */
  function Preview(s: string, n: nat): (r: string)
    ensures s == [] ==> r == EmptyPreview
    ensures s != [] ==> '\n' !in r && |r| <= 2 * n
  {
    if s == [] then EmptyPreview
    else
      var head := s[..Min(n, |s|)];
      ReplaceAllExcludes(head, '\n', "\\n", '\n');
      ReplaceAllLength(head, '\n', "\\n");
      CountBound(head, '\n');
      ReplaceAll(head, '\n', "\\n")
  }

  /** A non-empty value previews as its escaped first `n` characters, one more
      character for each line break among them. */
  lemma PreviewOfNonEmpty(s: string, n: nat)
    requires s != []
    ensures Preview(s, n) == ReplaceAll(s[..Min(n, |s|)], '\n', "\\n")
    ensures |Preview(s, n)| == Min(n, |s|) + Count(s[..Min(n, |s|)], '\n')
  {
    ReplaceAllLength(s[..Min(n, |s|)], '\n', "\\n");
  }

  /** A short value without line breaks is shown in full. */
  lemma PreviewOfShortLine(s: string, n: nat)
    requires s != [] && |s| <= n && '\n' !in s
    ensures Preview(s, n) == s
  {
    assert s[..|s|] == s;
    ReplaceAllAbsent(s, '\n', "\\n");
  }

  datatype HttpResponse = HttpResponse(statusCode: nat, body: string)

  /** The two lines reported for one configuration value, and a blank line. */
  function ValueReport(name: string, value: string): string
  {
    name + " starts: " + Preview(value, PreviewLength) + "\n"
    + name + " length: " + NatToString(|value|) + "\n\n"
  }

  /** The body of the failure response. */
  function DebugBody(sites: string, cred: string, error: string): string
  {
    "DEBUG\n"
    + ValueReport(SitesVar, sites)
    + ValueReport(CredentialVar, cred)
    + "ERROR: " + error + "\n"
  }

  /** `handler`: validate the site list, then the credential, then run the
      daily job; the first failure becomes a 500 response with the diagnostic
      body. */
  function RunNowHandler(env: Environment, parseJson: string -> Outcome, runDaily: Outcome): (r: HttpResponse)
    ensures var s := GetOrEmpty(env, SitesVar);
      var g := GetOrEmpty(env, CredentialVar);
      && (r.statusCode == 200 <==>
            parseJson(s) == Returned && parseJson(g) == Returned && runDaily == Returned)
      && (r.statusCode == 200 ==> r.body == "OK")
      && (r.statusCode != 200 ==>
            r.statusCode == 500 &&
            var failure := if parseJson(s).Threw? then parseJson(s)
                           else if parseJson(g).Threw? then parseJson(g) else runDaily;
            failure.Threw? && r.body == DebugBody(s, g, failure.message))
  {
    var s := GetOrEmpty(env, SitesVar);
    var g := GetOrEmpty(env, CredentialVar);
    match parseJson(s)
    case Threw(e) => HttpResponse(500, DebugBody(s, g, e))
    case Returned =>
      match parseJson(g)
      case Threw(e) => HttpResponse(500, DebugBody(s, g, e))
      case Returned =>
        match runDaily
        case Threw(e) => HttpResponse(500, DebugBody(s, g, e))
        case Returned => HttpResponse(200, "OK")
  }

  /** An unset variable previews as `(empty)` and reports length 0. */
  lemma AbsentVariable(env: Environment, name: string)
    requires name !in env
    ensures Preview(GetOrEmpty(env, name), PreviewLength) == EmptyPreview
    ensures |GetOrEmpty(env, name)| == 0
  {
  }

  lemma PreviewNoNewline(s: string)
    ensures '\n' !in Preview(s, PreviewLength)
  {
  }


  lemma TwoLinesAndBlank(name: string, s1: string, v1: string, s2: string, v2: string)
    ensures name + s1 + v1 + "\n" + name + s2 + v2 + "\n\n"
         == Unlines([name + s1 + v1, name + s2 + v2, ""])
  {
    var l1 := name + s1 + v1;
    var l2 := name + s2 + v2;
    assert Unlines([""]) == "\n";
    assert Unlines([l2, ""]) == l2 + "\n" + "\n";
    assert Unlines([l1, l2, ""]) == l1 + "\n" + (l2 + "\n" + "\n");
  }

  lemma ValueReportLines(name: string, value: string)
    ensures ValueReport(name, value) == Unlines([
      name + " starts: " + Preview(value, PreviewLength),
      name + " length: " + NatToString(|value|),
      ""])
  {
    TwoLinesAndBlank(name, " starts: ", Preview(value, PreviewLength), " length: ", NatToString(|value|));
  }

  /** The configuration lines of the failure body, in order. */
  function DebugLines(sites: string, cred: string, error: string): seq<string>
  {
    ["DEBUG"]
    + [SitesVar + " starts: " + Preview(sites, PreviewLength), SitesVar + " length: " + NatToString(|sites|), ""]
    + [CredentialVar + " starts: " + Preview(cred, PreviewLength), CredentialVar + " length: " + NatToString(|cred|), ""]
    + ["ERROR: " + error]
  }

  lemma DebugBodyUnlines(sites: string, cred: string, error: string)
    ensures DebugBody(sites, cred, error) == Unlines(DebugLines(sites, cred, error))
  {
    var head := ["DEBUG"];
    var vs := [SitesVar + " starts: " + Preview(sites, PreviewLength), SitesVar + " length: " + NatToString(|sites|), ""];
    var vg := [CredentialVar + " starts: " + Preview(cred, PreviewLength), CredentialVar + " length: " + NatToString(|cred|), ""];
    var tail := ["ERROR: " + error];
    ValueReportLines(SitesVar, sites);
    ValueReportLines(CredentialVar, cred);
    assert Unlines(head) == "DEBUG\n";
    assert Unlines(tail) == "ERROR: " + error + "\n";
    UnlinesAppend(head, vs);
    UnlinesAppend(head + vs, vg);
    UnlinesAppend(head + vs + vg, tail);
  }

  lemma NoNewlineConcat(a: string, b: string)
    requires '\n' !in a && '\n' !in b
    ensures '\n' !in a + b
  {
  }

  lemma LabelledOneLine(name: string, tag: string, value: string)
    requires '\n' !in name && '\n' !in tag && '\n' !in value
    ensures '\n' !in name + tag + value
  {
    NoNewlineConcat(name, tag);
    NoNewlineConcat(name + tag, value);
  }

  lemma TagsOneLine()
    ensures '\n' !in " starts: " && '\n' !in " length: "
  {
    assert forall i :: 0 <= i < |" starts: "| ==> " starts: "[i] != '\n';
    assert forall i :: 0 <= i < |" length: "| ==> " length: "[i] != '\n';
  }

  /** Both lines reported for one value are single lines. */
  lemma ValueLinesOneLine(name: string, value: string)
    requires '\n' !in name
    ensures '\n' !in name + " starts: " + Preview(value, PreviewLength)
    ensures '\n' !in name + " length: " + NatToString(|value|)
  {
    PreviewNoNewline(value);
    NatToStringNoNewline(|value|);
    TagsOneLine();
    LabelledOneLine(name, " starts: ", Preview(value, PreviewLength));
    LabelledOneLine(name, " length: ", NatToString(|value|));
  }

  lemma DebugLinesOneLine(sites: string, cred: string, error: string)
    requires '\n' !in error
    ensures forall i :: 0 <= i < |DebugLines(sites, cred, error)| ==> '\n' !in DebugLines(sites, cred, error)[i]
  {
    assert '\n' !in SitesVar && '\n' !in CredentialVar;
    ValueLinesOneLine(SitesVar, sites);
    ValueLinesOneLine(CredentialVar, cred);
    NoNewlineConcat("ERROR: ", error);
  }

  /** Read line by line, the failure body is `DEBUG`, the preview and the
      exact length of each value, and the error message last. */
  lemma DebugBodyLines(sites: string, cred: string, error: string)
    requires '\n' !in error
    ensures Split(DebugBody(sites, cred, error), '\n') == [
      "DEBUG",
      SitesVar + " starts: " + Preview(sites, PreviewLength),
      SitesVar + " length: " + NatToString(|sites|),
      "",
      CredentialVar + " starts: " + Preview(cred, PreviewLength),
      CredentialVar + " length: " + NatToString(|cred|),
      "",
      "ERROR: " + error,
      ""]
  {
    var lines := DebugLines(sites, cred, error);
    DebugBodyUnlines(sites, cred, error);
    DebugLinesOneLine(sites, cred, error);
    SplitUnlines(lines);
  }

  /** The body starts with `DEBUG` and ends with the error line. */
  lemma DebugBodyEnds(sites: string, cred: string, error: string)
    ensures HasPrefix(DebugBody(sites, cred, error), "DEBUG\n")
    ensures HasSuffix(DebugBody(sites, cred, error), "ERROR: " + error + "\n")
  {
    var b := DebugBody(sites, cred, error);
    var tail := "ERROR: " + error + "\n";
    assert b[..6] == "DEBUG\n";
    assert b[|b| - |tail|..] == tail;
  }

  /** For a fixed error, the body depends on each value only through its
      first 40 characters and its length: values that agree on both give the
      same body, however they differ beyond that. */
  lemma DebugBodyRevealsOnlyPrefix(s1: string, s2: string, g1: string, g2: string, error: string)
    requires |s1| == |s2| && s1[..Min(PreviewLength, |s1|)] == s2[..Min(PreviewLength, |s2|)]
    requires |g1| == |g2| && g1[..Min(PreviewLength, |g1|)] == g2[..Min(PreviewLength, |g2|)]
    ensures DebugBody(s1, g1, error) == DebugBody(s2, g2, error)
  {
  }
}

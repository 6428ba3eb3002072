/** The final presentation agent's input (src/agents/final_presentation.py):
    six labelled lines carrying the user's question, the evidence the
    professional-info agent gathered (or "none" for each evidence line when
    there is none) and the orchestrator's refusal directive. The language
    model that turns this text into the answer is a parameter of the agent
    runner. */
module FinalPresentation {
  import opened Wrappers
  import opened Text
  import opened Json
  import opened Schemas
  import PyRepr

  const QueryLabel: string := "Original user query: "
  const CoverageLabel: string := "Coverage assessment: "
  const ClaimsLabel: string := "Claims: "
  const ProjectsLabel: string := "Relevant projects: "
  const RedirectLabel: string := "Safe redirect: "
  const RefusalLabel: string := "Refusal directive: "

  /** The JSON text of each claim, in order. */
  function ClaimTexts(claims: seq<Claims>): (texts: seq<string>)
    ensures |texts| == |claims|
    ensures forall i :: 0 <= i < |claims| ==> texts[i] == Render(ClaimJson(claims[i]))
  {
    if claims == [] then [] else [Render(ClaimJson(claims[0]))] + ClaimTexts(claims[1..])
  }

  /** The four evidence values: coverage, claims, projects and redirect. */
  function EvidenceFields(bundle: Option<EvidenceBundle>, printable: char -> bool): (fields: seq<string>)
    ensures |fields| == 4
    ensures bundle.None? ==> fields == ["none", "none", "none", "none"]
  {
    match bundle
    case None => ["none", "none", "none", "none"]
    case Some(b) =>
      var redirect := match b.safeRedirectIfMissing
        case Some(r) => if r == "" then "none" else r
        case None => "none";
      [Render(CoverageJson(b.coverageAssessment)),
       PyRepr.ListRepr(ClaimTexts(b.claims), printable),
       Join(", ", b.projectLeads.GetOr([])),
       redirect]
  }

  /** The six lines of the input, each with its label. */
  function FormatLines(userQuery: string, bundle: Option<EvidenceBundle>, route: OrchestratorRoute,
                       printable: char -> bool): (lines: seq<string>)
    ensures |lines| == 6
  {
    var f := EvidenceFields(bundle, printable);
    [QueryLabel + userQuery, CoverageLabel + f[0], ClaimsLabel + f[1], ProjectsLabel + f[2],
     RedirectLabel + f[3], RefusalLabel + Render(RefusalJson(route.refusalDirective))]
  }

  /** `_format_input`: the six lines joined by line breaks. */
  function FormatInput(userQuery: string, bundle: Option<EvidenceBundle>, route: OrchestratorRoute,
                       printable: char -> bool): string
  {
    Join("\n", FormatLines(userQuery, bundle, route, printable))
  }

  /** Whether the text the agent receives can be read back line by line:
      the query, and with evidence the project names and the redirect, hold
      no line break. */
  predicate SingleLineInputs(userQuery: string, bundle: Option<EvidenceBundle>)
  {
    '\n' !in userQuery
    && (bundle.Some? ==>
          (bundle.value.projectLeads.Some? ==>
             forall i :: 0 <= i < |bundle.value.projectLeads.value| ==> '\n' !in bundle.value.projectLeads.value[i])
          && (bundle.value.safeRedirectIfMissing.Some? ==> '\n' !in bundle.value.safeRedirectIfMissing.value))
  }

  lemma LabelsSingleLine()
    ensures '\n' !in QueryLabel && '\n' !in CoverageLabel && '\n' !in ClaimsLabel
    ensures '\n' !in ProjectsLabel && '\n' !in RedirectLabel && '\n' !in RefusalLabel
  {
  }

  lemma AppendFree(a: string, b: string)
    requires '\n' !in a && '\n' !in b
    ensures '\n' !in a + b
  {
  }

  /** The coverage, claims and refusal lines are single lines whatever the
      evidence says: their values are compact JSON and a Python list
      `repr`, both of which escape line breaks. */
  lemma EvidenceFieldsSingleLine(userQuery: string, bundle: Option<EvidenceBundle>, printable: char -> bool)
    requires SingleLineInputs(userQuery, bundle)
    ensures forall i :: 0 <= i < 4 ==> '\n' !in EvidenceFields(bundle, printable)[i]
  {
    var f := EvidenceFields(bundle, printable);
    if bundle.Some? {
      var b := bundle.value;
      var leads := b.projectLeads.GetOr([]);
      RenderSingleLine(CoverageJson(b.coverageAssessment));
      assert '\n' !in f[0];
      PyRepr.ListReprNoNewline(ClaimTexts(b.claims), printable);
      assert '\n' !in f[1];
      assert forall i :: 0 <= i < |leads| ==> '\n' !in leads[i];
      JoinFree(", ", leads, '\n');
      assert '\n' !in f[2];
      assert '\n' !in f[3];
    }
  }

  /** Splitting the input on line breaks gives back exactly the six
      labelled lines. */
  lemma InputLines(userQuery: string, bundle: Option<EvidenceBundle>, route: OrchestratorRoute,
                   printable: char -> bool)
    requires SingleLineInputs(userQuery, bundle)
    ensures Split(FormatInput(userQuery, bundle, route, printable), '\n')
         == FormatLines(userQuery, bundle, route, printable)
  {
    var lines := FormatLines(userQuery, bundle, route, printable);
    var f := EvidenceFields(bundle, printable);
    EvidenceFieldsSingleLine(userQuery, bundle, printable);
    RenderSingleLine(RefusalJson(route.refusalDirective));
    LabelsSingleLine();
    AppendFree(QueryLabel, userQuery);
    AppendFree(CoverageLabel, f[0]);
    AppendFree(ClaimsLabel, f[1]);
    AppendFree(ProjectsLabel, f[2]);
    AppendFree(RedirectLabel, f[3]);
    AppendFree(RefusalLabel, Render(RefusalJson(route.refusalDirective)));
    SplitJoin(lines, '\n');
  }

  /** With evidence, each item of the claims list reads back to one
      claim's JSON, in the order of the claims. */
  lemma ClaimsLineReadsBack(b: EvidenceBundle, printable: char -> bool, i: nat)
    requires i < |b.claims|
    ensures var items := PyRepr.Reprs(ClaimTexts(b.claims), printable);
            EvidenceFields(Some(b), printable)[1] == "[" + Join(", ", items) + "]"
            && PyRepr.Unrepr(items[i][1..|items[i]| - 1], items[i][0]) == Some(Render(ClaimJson(b.claims[i])))
  {
    var texts := ClaimTexts(b.claims);
    var items := PyRepr.Reprs(texts, printable);
    var s := texts[i];
    var q := PyRepr.QuoteFor(s);
    var body := PyRepr.ReprBody(s, q, printable);
    assert items[i] == [q] + body + [q];
    assert items[i][1..|items[i]| - 1] == body;
    PyRepr.UnreprRepr(s, q, printable);
  }

  /** With evidence, the coverage line carries the assessment's compact
      JSON, which reads back to the assessment and is never the "none" of
      the no-evidence case. */
  lemma CoverageField(b: EvidenceBundle, printable: char -> bool)
    ensures var f := EvidenceFields(Some(b), printable)[0];
            f == Render(CoverageJson(b.coverageAssessment))
            && CoverageFromJson(CoverageJson(b.coverageAssessment)) == Some(b.coverageAssessment)
            && f[0] == '{' && f != "none"
  {
    CoverageRoundTrip(b.coverageAssessment);
  }

  /** With evidence, the projects line is the project names joined by
      ", ": missing or empty leads give "", not the "none" written when
      there is no evidence at all, and the line is "" only then or for a
      single empty name. */
  lemma ProjectsField(b: EvidenceBundle, printable: char -> bool)
    ensures EvidenceFields(Some(b), printable)[2] == Join(", ", b.projectLeads.GetOr([]))
    ensures EvidenceFields(Some(b), printable)[2] == ""
        <==> b.projectLeads.None? || b.projectLeads.value == [] || b.projectLeads.value == [""]
    ensures EvidenceFields(None, printable)[2] == "none"
  {
    var leads := b.projectLeads.GetOr([]);
    if |leads| > 1 {
      assert |Join(", ", leads)| >= 2;
    }
  }

  /** A missing or empty redirect is written "none"; any other redirect is
      written as it is. */
  lemma RedirectField(b: EvidenceBundle, printable: char -> bool)
    ensures EvidenceFields(Some(b), printable)[3] == "none"
        <==> b.safeRedirectIfMissing.None? || b.safeRedirectIfMissing.value in {"", "none"}
    ensures b.safeRedirectIfMissing.Some? && b.safeRedirectIfMissing.value != "" ==>
      EvidenceFields(Some(b), printable)[3] == b.safeRedirectIfMissing.value
  {
  }
}

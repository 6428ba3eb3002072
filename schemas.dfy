/** The messages the agents exchange (src/models/schemas.py): two string
    enums and seven pydantic models. Each model has the JSON object that
    `model_dump_json()` writes (all fields, in declaration order, `None` as
    `null`) and the validation that builds it back from a JSON object,
    modelled with strict types: a required field that is missing or holds
    a value of another JSON type rejects the object (pydantic's lax
    coercions are not modelled), a missing optional field takes its
    default, unknown fields are ignored. */
module Schemas {
  import opened Wrappers
  import opened Json

  /** Targets the routing agent may address. */
  datatype DownstreamAgent = ProfessionalInfo | PublicPersona | FinalPresentation

  function AgentValue(a: DownstreamAgent): string
  {
    match a
    case ProfessionalInfo => "professional_info"
    case PublicPersona => "public_persona"
    case FinalPresentation => "final_presentation"
  }

  /** `DownstreamAgent(value)`: exactly the three values are accepted. */
  function AgentFromValue(s: string): (r: Option<DownstreamAgent>)
    ensures r.Some? <==> s in {"professional_info", "public_persona", "final_presentation"}
    ensures r.Some? ==> AgentValue(r.value) == s
  {
    if s == "professional_info" then Some(ProfessionalInfo)
    else if s == "public_persona" then Some(PublicPersona)
    else if s == "final_presentation" then Some(FinalPresentation)
    else None
  }

  /** Each target is written as a value that reads back as that target, so
      the three values are distinct. */
  lemma AgentValueRoundTrip(a: DownstreamAgent)
    ensures AgentFromValue(AgentValue(a)) == Some(a)
  {
  }

  /** Tools an evidence claim can come from. */
  datatype Support = Resume | AboutSanath | Retrieve

  function SupportValue(s: Support): string
  {
    match s
    case Resume => "resume"
    case AboutSanath => "about_sanath"
    case Retrieve => "retrieve"
  }

  function SupportFromValue(s: string): (r: Option<Support>)
    ensures r.Some? <==> s in {"resume", "about_sanath", "retrieve"}
    ensures r.Some? ==> SupportValue(r.value) == s
  {
    if s == "resume" then Some(Resume)
    else if s == "about_sanath" then Some(AboutSanath)
    else if s == "retrieve" then Some(Retrieve)
    else None
  }

  lemma SupportValueRoundTrip(s: Support)
    ensures SupportFromValue(SupportValue(s)) == Some(s)
  {
  }

  datatype Reinterpretation = Reinterpretation(needed: bool, rewrittenQuestion: Option<string>)

  datatype DownstreamRequest = DownstreamRequest(agent: DownstreamAgent, task: string, constraints: Option<string>)

  const DefaultStyle: string := "polite and humorous with redirect"

  datatype RefusalDirective = RefusalDirective(needed: bool, reason: Option<string>, style: Option<string>)

  datatype OrchestratorRoute = OrchestratorRoute(
    reinterpretation: Reinterpretation,
    downstreamRequests: seq<DownstreamRequest>,
    refusalDirective: RefusalDirective)

  datatype CoverageAssessment = CoverageAssessment(sufficient: bool, missingPoints: seq<string>)

  datatype Claims = Claims(documents: seq<string>, support: Support)

  datatype EvidenceBundle = EvidenceBundle(
    coverageAssessment: CoverageAssessment,
    claims: seq<Claims>,
    projectLeads: Option<seq<string>>,
    safeRedirectIfMissing: Option<string>)

  // ---------------------------------------------------------------------
  // model_dump: the JSON object of each model

  function OptString(o: Option<string>): Json
  {
    match o
    case Some(s) => JString(s)
    case None => JNull
  }

  function StringsJson(xs: seq<string>): (r: seq<Json>)
    ensures |r| == |xs| && forall i :: 0 <= i < |xs| ==> r[i] == JString(xs[i])
  {
    if xs == [] then [] else [JString(xs[0])] + StringsJson(xs[1..])
  }

  function ReinterpretationJson(r: Reinterpretation): Json
  {
    JObject([Member("needed", JBool(r.needed)), Member("rewritten_question", OptString(r.rewrittenQuestion))])
  }

  function RequestJson(d: DownstreamRequest): Json
  {
    JObject([Member("agent", JString(AgentValue(d.agent))), Member("task", JString(d.task)),
             Member("constraints", OptString(d.constraints))])
  }

  function RequestsJson(ds: seq<DownstreamRequest>): (r: seq<Json>)
    ensures |r| == |ds| && forall i :: 0 <= i < |ds| ==> r[i] == RequestJson(ds[i])
  {
    if ds == [] then [] else [RequestJson(ds[0])] + RequestsJson(ds[1..])
  }

  function RefusalJson(r: RefusalDirective): Json
  {
    JObject([Member("needed", JBool(r.needed)), Member("reason", OptString(r.reason)),
             Member("style", OptString(r.style))])
  }

  function RouteJson(o: OrchestratorRoute): Json
  {
    JObject([Member("reinterpretation", ReinterpretationJson(o.reinterpretation)),
             Member("downstream_requests", JArray(RequestsJson(o.downstreamRequests))),
             Member("refusal_directive", RefusalJson(o.refusalDirective))])
  }

  function CoverageJson(c: CoverageAssessment): Json
  {
    JObject([Member("sufficient", JBool(c.sufficient)), Member("missing_points", JArray(StringsJson(c.missingPoints)))])
  }

  function ClaimJson(c: Claims): Json
  {
    JObject([Member("documents", JArray(StringsJson(c.documents))), Member("support", JString(SupportValue(c.support)))])
  }

  function ClaimsJson(cs: seq<Claims>): (r: seq<Json>)
    ensures |r| == |cs| && forall i :: 0 <= i < |cs| ==> r[i] == ClaimJson(cs[i])
  {
    if cs == [] then [] else [ClaimJson(cs[0])] + ClaimsJson(cs[1..])
  }

  function BundleJson(b: EvidenceBundle): Json
  {
    JObject([Member("coverage_assessment", CoverageJson(b.coverageAssessment)),
             Member("claims", JArray(ClaimsJson(b.claims))),
             Member("project_leads", match b.projectLeads case Some(ps) => JArray(StringsJson(ps)) case None => JNull),
             Member("safe_redirect_if_missing", OptString(b.safeRedirectIfMissing))])
  }

  // ---------------------------------------------------------------------
  // model_validate: building each model from a JSON object

  function BoolField(ms: seq<Member>, key: string): Option<bool>
  {
    match Get(ms, key)
    case Some(JBool(b)) => Some(b)
    case _ => None
  }

  function StringField(ms: seq<Member>, key: string): Option<string>
  {
    match Get(ms, key)
    case Some(JString(s)) => Some(s)
    case _ => None
  }

  /** An `Optional[str]` field with a default: `Some(Some(s))` for a string,
      `Some(None)` for `null`, `Some(default)` when the field is absent,
      `None` (a validation error) for any other value. */
  function OptStringField(ms: seq<Member>, key: string, default: Option<string>): Option<Option<string>>
  {
    match Get(ms, key)
    case None => Some(default)
    case Some(JNull) => Some(None)
    case Some(JString(s)) => Some(Some(s))
    case Some(_) => None
  }

  function StringsFromJson(items: seq<Json>): (r: Option<seq<string>>)
    ensures r.Some? ==> |r.value| == |items|
  {
    if items == [] then Some([])
    else match (items[0], StringsFromJson(items[1..]))
      case (JString(s), Some(rest)) => Some([s] + rest)
      case _ => None
  }

  function StringListField(ms: seq<Member>, key: string): Option<seq<string>>
  {
    match Get(ms, key)
    case Some(JArray(items)) => StringsFromJson(items)
    case _ => None
  }

  function ReinterpretationFromJson(j: Json): Option<Reinterpretation>
  {
    match j
    case JObject(ms) =>
      (match (BoolField(ms, "needed"), OptStringField(ms, "rewritten_question", None))
       case (Some(n), Some(q)) => Some(Reinterpretation(n, q))
       case _ => None)
    case _ => None
  }

  function RequestFromJson(j: Json): Option<DownstreamRequest>
  {
    match j
    case JObject(ms) =>
      (match StringField(ms, "agent")
       case None => None
       case Some(v) =>
         match (AgentFromValue(v), StringField(ms, "task"), OptStringField(ms, "constraints", None))
         case (Some(a), Some(t), Some(c)) => Some(DownstreamRequest(a, t, c))
         case _ => None)
    case _ => None
  }

  function RequestsFromJson(items: seq<Json>): (r: Option<seq<DownstreamRequest>>)
    ensures r.Some? ==> |r.value| == |items|
  {
    if items == [] then Some([])
    else match (RequestFromJson(items[0]), RequestsFromJson(items[1..]))
      case (Some(d), Some(rest)) => Some([d] + rest)
      case _ => None
  }

  function RefusalFromJson(j: Json): Option<RefusalDirective>
  {
    match j
    case JObject(ms) =>
      (match (BoolField(ms, "needed"), OptStringField(ms, "reason", None), OptStringField(ms, "style", Some(DefaultStyle)))
       case (Some(n), Some(r), Some(s)) => Some(RefusalDirective(n, r, s))
       case _ => None)
    case _ => None
  }

  /** `OrchestratorRoute.model_validate`: what the routing agent's structured
      output must satisfy. */
  function RouteFromJson(j: Json): Option<OrchestratorRoute>
  {
    match j
    case JObject(ms) =>
      (match (Get(ms, "reinterpretation"), Get(ms, "downstream_requests"), Get(ms, "refusal_directive"))
       case (Some(rj), Some(JArray(ds)), Some(fj)) =>
         (match (ReinterpretationFromJson(rj), RequestsFromJson(ds), RefusalFromJson(fj))
          case (Some(r), Some(d), Some(f)) => Some(OrchestratorRoute(r, d, f))
          case _ => None)
       case _ => None)
    case _ => None
  }

  function CoverageFromJson(j: Json): Option<CoverageAssessment>
  {
    match j
    case JObject(ms) =>
      (match (BoolField(ms, "sufficient"), StringListField(ms, "missing_points"))
       case (Some(s), Some(m)) => Some(CoverageAssessment(s, m))
       case _ => None)
    case _ => None
  }

  function ClaimFromJson(j: Json): Option<Claims>
  {
    match j
    case JObject(ms) =>
      (match (StringListField(ms, "documents"), StringField(ms, "support"))
       case (Some(d), Some(v)) =>
         (match SupportFromValue(v)
          case Some(s) => Some(Claims(d, s))
          case None => None)
       case _ => None)
    case _ => None
  }

  function ClaimsFromJson(items: seq<Json>): (r: Option<seq<Claims>>)
    ensures r.Some? ==> |r.value| == |items|
  {
    if items == [] then Some([])
    else match (ClaimFromJson(items[0]), ClaimsFromJson(items[1..]))
      case (Some(c), Some(rest)) => Some([c] + rest)
      case _ => None
  }

  /** `project_leads`: an optional list of strings, `None` by default. */
  function LeadsField(ms: seq<Member>): Option<Option<seq<string>>>
  {
    match Get(ms, "project_leads")
    case None => Some(None)
    case Some(JNull) => Some(None)
    case Some(JArray(items)) =>
      (match StringsFromJson(items) case Some(ps) => Some(Some(ps)) case None => None)
    case Some(_) => None
  }

  /** `EvidenceBundle.model_validate`: what the evidence agent's structured
      output must satisfy. */
  function BundleFromJson(j: Json): Option<EvidenceBundle>
  {
    match j
    case JObject(ms) =>
      (match (Get(ms, "coverage_assessment"), Get(ms, "claims"))
       case (Some(cj), Some(JArray(cs))) =>
         (match (CoverageFromJson(cj), ClaimsFromJson(cs), LeadsField(ms), OptStringField(ms, "safe_redirect_if_missing", None))
          case (Some(c), Some(claims), Some(l), Some(r)) => Some(EvidenceBundle(c, claims, l, r))
          case _ => None)
       case _ => None)
    case _ => None
  }

  // ---------------------------------------------------------------------
  // Round trips: validating what model_dump wrote gives the model back

  lemma {:induction false} StringsRoundTrip(xs: seq<string>)
    ensures StringsFromJson(StringsJson(xs)) == Some(xs)
  {
    StringsFromJsonOf(StringsJson(xs), xs);
  }

  lemma {:induction false} StringsFromJsonOf(items: seq<Json>, xs: seq<string>)
    requires |items| == |xs| && forall i :: 0 <= i < |xs| ==> items[i] == JString(xs[i])
    ensures StringsFromJson(items) == Some(xs)
  {
    if xs != [] {
      StringsFromJsonOf(items[1..], xs[1..]);
      assert items[0] == JString(xs[0]);
      assert [xs[0]] + xs[1..] == xs;
    }
  }

  lemma {:induction false} RequestsRoundTrip(ds: seq<DownstreamRequest>)
    ensures RequestsFromJson(RequestsJson(ds)) == Some(ds)
  {
    if ds != [] {
      RequestsRoundTrip(ds[1..]);
      RequestRoundTrip(ds[0]);
      assert RequestsJson(ds)[1..] == RequestsJson(ds[1..]);
      assert [ds[0]] + ds[1..] == ds;
    }
  }

  lemma RequestRoundTrip(d: DownstreamRequest)
    ensures RequestFromJson(RequestJson(d)) == Some(d)
  {
    var a, t, c := Member("agent", JString(AgentValue(d.agent))), Member("task", JString(d.task)),
                   Member("constraints", OptString(d.constraints));
    forall key | key in {"agent", "task", "constraints"}
      ensures Get([a, t, c], key) == if key == "agent" then Some(a.value) else if key == "task" then Some(t.value) else Some(c.value)
    {
      Get3(a, t, c, key); Get2(a, t, key); Get1(a, key);
    }
    AgentValueRoundTrip(d.agent);
  }

  lemma ReinterpretationRoundTrip(r: Reinterpretation)
    ensures ReinterpretationFromJson(ReinterpretationJson(r)) == Some(r)
  {
    var n, q := Member("needed", JBool(r.needed)), Member("rewritten_question", OptString(r.rewrittenQuestion));
    Get2(n, q, "needed"); Get1(n, "needed");
    Get2(n, q, "rewritten_question");
  }

  lemma RefusalRoundTrip(f: RefusalDirective)
    ensures RefusalFromJson(RefusalJson(f)) == Some(f)
  {
    var n, r, s := Member("needed", JBool(f.needed)), Member("reason", OptString(f.reason)), Member("style", OptString(f.style));
    Get3(n, r, s, "needed"); Get2(n, r, "needed"); Get1(n, "needed");
    Get3(n, r, s, "reason"); Get2(n, r, "reason");
    Get3(n, r, s, "style");
  }

  /** A routing decision survives `model_dump_json` and validation. */
  lemma RouteRoundTrip(o: OrchestratorRoute)
    ensures RouteFromJson(RouteJson(o)) == Some(o)
  {
    RequestsRoundTrip(o.downstreamRequests);
    ReinterpretationRoundTrip(o.reinterpretation);
    RefusalRoundTrip(o.refusalDirective);
    var r := Member("reinterpretation", ReinterpretationJson(o.reinterpretation));
    var d := Member("downstream_requests", JArray(RequestsJson(o.downstreamRequests)));
    var f := Member("refusal_directive", RefusalJson(o.refusalDirective));
    Get3(r, d, f, "reinterpretation"); Get2(r, d, "reinterpretation"); Get1(r, "reinterpretation");
    Get3(r, d, f, "downstream_requests"); Get2(r, d, "downstream_requests");
    Get3(r, d, f, "refusal_directive");
  }

  lemma ClaimRoundTrip(c: Claims)
    ensures ClaimFromJson(ClaimJson(c)) == Some(c)
  {
    StringsRoundTrip(c.documents);
    SupportValueRoundTrip(c.support);
    var d, s := Member("documents", JArray(StringsJson(c.documents))), Member("support", JString(SupportValue(c.support)));
    Get2(d, s, "documents"); Get1(d, "documents");
    Get2(d, s, "support");
  }

  lemma {:induction false} ClaimsRoundTrip(cs: seq<Claims>)
    ensures ClaimsFromJson(ClaimsJson(cs)) == Some(cs)
  {
    if cs != [] {
      ClaimsRoundTrip(cs[1..]);
      ClaimRoundTrip(cs[0]);
      assert ClaimsJson(cs)[1..] == ClaimsJson(cs[1..]);
      assert [cs[0]] + cs[1..] == cs;
    }
  }

  lemma CoverageRoundTrip(c: CoverageAssessment)
    ensures CoverageFromJson(CoverageJson(c)) == Some(c)
  {
    StringsRoundTrip(c.missingPoints);
    var s, m := Member("sufficient", JBool(c.sufficient)), Member("missing_points", JArray(StringsJson(c.missingPoints)));
    Get2(s, m, "sufficient"); Get1(s, "sufficient");
    Get2(s, m, "missing_points");
  }

  /** An evidence bundle survives `model_dump_json` and validation. */
  lemma BundleRoundTrip(b: EvidenceBundle)
    ensures BundleFromJson(BundleJson(b)) == Some(b)
  {
    var ms := BundleJson(b).members;
    ClaimsRoundTrip(b.claims);
    CoverageRoundTrip(b.coverageAssessment);
    BundleGets(b);
    LeadsRoundTrip(b);
    assert OptStringField(ms, "safe_redirect_if_missing", None) == Some(b.safeRedirectIfMissing);
  }

  lemma LeadsRoundTrip(b: EvidenceBundle)
    ensures LeadsField(BundleJson(b).members) == Some(b.projectLeads)
  {
    BundleGets(b);
    if b.projectLeads.Some? {
      StringsRoundTrip(b.projectLeads.value);
    }
  }

  /** The four members of a dumped bundle, looked up by key. */
  lemma BundleGets(b: EvidenceBundle)
    ensures var ms := BundleJson(b).members;
      Get(ms, "coverage_assessment") == Some(CoverageJson(b.coverageAssessment))
      && Get(ms, "claims") == Some(JArray(ClaimsJson(b.claims)))
      && Get(ms, "project_leads") == Some(match b.projectLeads case Some(ps) => JArray(StringsJson(ps)) case None => JNull)
      && Get(ms, "safe_redirect_if_missing") == Some(OptString(b.safeRedirectIfMissing))
  {
    var c := Member("coverage_assessment", CoverageJson(b.coverageAssessment));
    var cl := Member("claims", JArray(ClaimsJson(b.claims)));
    var p := Member("project_leads", match b.projectLeads case Some(ps) => JArray(StringsJson(ps)) case None => JNull);
    var r := Member("safe_redirect_if_missing", OptString(b.safeRedirectIfMissing));
    Get4(c, cl, p, r, "coverage_assessment"); Get3(c, cl, p, "coverage_assessment");
    Get2(c, cl, "coverage_assessment"); Get1(c, "coverage_assessment");
    Get4(c, cl, p, r, "claims"); Get3(c, cl, p, "claims"); Get2(c, cl, "claims");
    Get4(c, cl, p, r, "project_leads"); Get3(c, cl, p, "project_leads");
    Get4(c, cl, p, r, "safe_redirect_if_missing");
  }

  // ---------------------------------------------------------------------
  // Defaults and required fields

  /** Only `needed` given: `reason` defaults to `None` and `style` to
      "polite and humorous with redirect". */
  lemma RefusalDefaults(needed: bool)
    ensures RefusalFromJson(JObject([Member("needed", JBool(needed))]))
         == Some(RefusalDirective(needed, None, Some("polite and humorous with redirect")))
  {
    var n := Member("needed", JBool(needed));
    Get1(n, "needed"); Get1(n, "reason"); Get1(n, "style");
  }

  /** `needed` is required in a refusal directive. */
  lemma RefusalNeedsNeeded(ms: seq<Member>)
    requires Get(ms, "needed").None?
    ensures RefusalFromJson(JObject(ms)) == None
  {
  }

  /** Only `needed` given: `rewritten_question` defaults to `None`. */
  lemma ReinterpretationDefaults(needed: bool)
    ensures ReinterpretationFromJson(JObject([Member("needed", JBool(needed))]))
         == Some(Reinterpretation(needed, None))
  {
    var n := Member("needed", JBool(needed));
    Get1(n, "needed"); Get1(n, "rewritten_question");
  }

  /** `constraints` defaults to `None`; `agent` and `task` are required. */
  lemma RequestDefaults(ms: seq<Member>)
    ensures RequestFromJson(JObject(ms)).Some? ==> Get(ms, "agent").Some? && Get(ms, "task").Some?
    ensures Get(ms, "constraints").None? ==>
      RequestFromJson(JObject(ms)).Some? ==> RequestFromJson(JObject(ms)).value.constraints == None
  {
  }

  /** A routing decision needs all three of its fields. */
  lemma RouteRequiresAll(ms: seq<Member>)
    requires RouteFromJson(JObject(ms)).Some?
    ensures Get(ms, "reinterpretation").Some?
    ensures Get(ms, "downstream_requests").Some? && Get(ms, "downstream_requests").value.JArray?
    ensures Get(ms, "refusal_directive").Some?
  {
  }

  /** A coverage assessment needs both `sufficient` and `missing_points`. */
  lemma CoverageRequiresBoth(ms: seq<Member>)
    requires CoverageFromJson(JObject(ms)).Some?
    ensures BoolField(ms, "sufficient").Some? && StringListField(ms, "missing_points").Some?
  {
  }

  /** An evidence bundle needs `coverage_assessment` and `claims`; without
      `project_leads` and `safe_redirect_if_missing` both default to
      `None`. */
  lemma BundleDefaults(c: CoverageAssessment, cs: seq<Claims>)
    ensures BundleFromJson(JObject([Member("coverage_assessment", CoverageJson(c)),
                                    Member("claims", JArray(ClaimsJson(cs)))]))
         == Some(EvidenceBundle(c, cs, None, None))
  {
    ClaimsRoundTrip(cs);
    CoverageRoundTrip(c);
    var cv, cl := Member("coverage_assessment", CoverageJson(c)), Member("claims", JArray(ClaimsJson(cs)));
    Get2(cv, cl, "coverage_assessment"); Get1(cv, "coverage_assessment");
    Get2(cv, cl, "claims");
    Get2(cv, cl, "project_leads"); Get1(cv, "project_leads");
    Get2(cv, cl, "safe_redirect_if_missing"); Get1(cv, "safe_redirect_if_missing");
  }

  lemma BundleRequires(ms: seq<Member>)
    requires BundleFromJson(JObject(ms)).Some?
    ensures Get(ms, "coverage_assessment").Some? && Get(ms, "claims").Some?
  {
  }
}

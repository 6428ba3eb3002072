/** The pipeline coordinator (src/agent_runner.py): route the conversation
    with the orchestrator, run the professional-info agent once per request
    addressed to it, then stream the final presentation's fragments. Every
    stage yields tagged events to the caller. The three agents are functions
    given with `Agents`; an agent that raises is a `None` result. */
module AgentRunner {
  import opened Wrappers
  import opened Text
  import opened Json
  import Schemas
  import FinalPresentation

  /** One turn of the conversation, `{"role": ..., "content": ...}`. */
  datatype Message = Message(role: string, content: string)

  /** The tag of an event, its `from_` field. */
  datatype AgentSource = FromOrchestrator | FromProfessionalInfo | FromFinalPresentation

  /** An event the coordinator yields: where it comes from and its text. */
  datatype AgentEvent = AgentEvent(source: AgentSource, output: string)

  /** The agents the coordinator calls.
      - `orchestrator`: the route for the conversation, `None` when the
        parsed output is missing and the agent raises;
      - `professionalInfo`: the evidence gathered for a prompt, `None` when
        the agent raises;
      - `presentation`: what the language model streams for the final
        presentation agent's input text;
      - `printable`: `str.isprintable` on characters outside ASCII. */
  datatype Agents = Agents(
    orchestrator: seq<Message> -> Option<Schemas.OrchestratorRoute>,
    professionalInfo: string -> Option<Schemas.EvidenceBundle>,
    presentation: string -> Stream,
    printable: char -> bool)

  /** The final presentation stage's stream: the fragments that arrived, in
      order, and whether it ran to its end (`false` when the agent raised
      after them). */
  datatype Stream = Stream(fragments: seq<string>, finished: bool)

  /** How a query ends: with the concatenated answer, or with an exception
      after the events already yielded. */
  datatype Outcome = Completed(finalResponse: string) | Failed

  /** The three lines of `_format_professional_info_prompt`: the query,
      the task, and the constraints or "none" when they are missing or
      empty. */
  function ProfessionalInfoPromptLines(userQuery: string, request: Schemas.DownstreamRequest): (lines: seq<string>)
    ensures |lines| == 3
    ensures lines[0] == "Original user query: " + userQuery && lines[1] == "Task: " + request.task
    ensures request.constraints.None? || request.constraints == Some("") ==> lines[2] == "Constraints: none"
    ensures request.constraints.Some? && request.constraints.value != "" ==>
      lines[2] == "Constraints: " + request.constraints.value
  {
    var constraints := match request.constraints
      case Some(c) => if c == "" then "none" else c
      case None => "none";
    ["Original user query: " + userQuery, "Task: " + request.task, "Constraints: " + constraints]
  }

  /** `_format_professional_info_prompt`: the three lines joined by line
      breaks. */
  function ProfessionalInfoPrompt(userQuery: string, request: Schemas.DownstreamRequest): string
  {
    Join("\n", ProfessionalInfoPromptLines(userQuery, request))
  }

  /** The prompt reads back as its three lines whenever the query, the task
      and the constraints hold no line break. */
  lemma ProfessionalInfoPromptSplit(userQuery: string, request: Schemas.DownstreamRequest)
    requires '\n' !in userQuery && '\n' !in request.task
    requires request.constraints.Some? ==> '\n' !in request.constraints.value
    ensures Split(ProfessionalInfoPrompt(userQuery, request), '\n') == ProfessionalInfoPromptLines(userQuery, request)
  {
    var lines := ProfessionalInfoPromptLines(userQuery, request);
    assert '\n' !in "Original user query: " && '\n' !in "Task: " && '\n' !in "Constraints: ";
    assert '\n' !in "none";
    forall k | 0 <= k < 3 ensures '\n' !in lines[k] { }
    SplitJoin(lines, '\n');
  }

  function RouteEvent(route: Schemas.OrchestratorRoute): AgentEvent
  {
    AgentEvent(FromOrchestrator, Render(Schemas.RouteJson(route)))
  }

  function BundleEvent(bundle: Schemas.EvidenceBundle): AgentEvent
  {
    AgentEvent(FromProfessionalInfo, Render(Schemas.BundleJson(bundle)))
  }

  function FragmentEvents(fragments: seq<string>): (events: seq<AgentEvent>)
    ensures |events| == |fragments|
    ensures forall k :: 0 <= k < |fragments| ==> events[k] == AgentEvent(FromFinalPresentation, fragments[k])
  {
    seq(|fragments|, k requires 0 <= k < |fragments| => AgentEvent(FromFinalPresentation, fragments[k]))
  }

  // ---------------------------------------------------------------------
  // The evidence stage, request by request

  /** Where the evidence loop stands: the events yielded so far, the
      current `evidence_bundle`, and whether an agent call raised. */
  datatype GatherState = GatherState(events: seq<AgentEvent>, evidence: Option<Schemas.EvidenceBundle>, failed: bool)

  /** One request: a professional-info request runs the agent on its
      prompt, yields the bundle and makes it the evidence; a public-persona
      or final-presentation request changes nothing. */
  function GatherStep(agents: Agents, userQuery: string, g: GatherState, request: Schemas.DownstreamRequest): GatherState
  {
    if g.failed || request.agent != Schemas.ProfessionalInfo then g
    else
      match agents.professionalInfo(ProfessionalInfoPrompt(userQuery, request))
      case None => GatherState(g.events, g.evidence, true)
      case Some(b) => GatherState(g.events + [BundleEvent(b)], Some(b), false)
  }

  /** The state after the loop has seen `requests`. */
  function Gather(agents: Agents, userQuery: string, requests: seq<Schemas.DownstreamRequest>): GatherState
  {
    if requests == [] then GatherState([], None, false)
    else GatherStep(agents, userQuery, Gather(agents, userQuery, requests[..|requests| - 1]), requests[|requests| - 1])
  }

  // ---------------------------------------------------------------------
  // The whole query

  datatype Trace = Trace(events: seq<AgentEvent>, outcome: Outcome)

  /** What the presentation stage streams for a route and the evidence
      handed on. */
  function Presentation(agents: Agents, userQuery: string, route: Schemas.OrchestratorRoute,
                        evidence: Option<Schemas.EvidenceBundle>): Stream
  {
    agents.presentation(FinalPresentation.FormatInput(userQuery, evidence, route, agents.printable))
  }

  /** `process_query` with the presentation stage streaming, as its loop
      over `final_presentation.run` expects: what it yields and how it
      ends. */
  function Pipeline(agents: Agents, userQuery: string, conversation: seq<Message>): (r: Trace)
    ensures r.events == [] <==> agents.orchestrator(conversation).None?
    ensures r.outcome.Completed? ==>
      agents.orchestrator(conversation).Some?
      && !Gather(agents, userQuery, agents.orchestrator(conversation).value.downstreamRequests).failed
  {
    match agents.orchestrator(conversation)
    case None => Trace([], Failed)
    case Some(route) =>
      var g := Gather(agents, userQuery, route.downstreamRequests);
      if g.failed then Trace([RouteEvent(route)] + g.events, Failed)
      else
        var stream := Presentation(agents, userQuery, route, g.evidence);
        Trace([RouteEvent(route)] + g.events + FragmentEvents(stream.fragments),
              if stream.finished then Completed(Concat(stream.fragments)) else Failed)
  }

  /** `process_query` as written: `final_presentation.run` is a coroutine
      function that returns the whole answer as one `str`, and `async for`
      over the coroutine it gives raises TypeError before the language
      model is called. The route and the evidence are yielded; no answer
      ever is. */
  function PipelineAsWritten(agents: Agents, userQuery: string, conversation: seq<Message>): (r: Trace)
    ensures r.outcome.Failed?
    ensures r.events == [] <==> agents.orchestrator(conversation).None?
  {
    match agents.orchestrator(conversation)
    case None => Trace([], Failed)
    case Some(route) =>
      var g := Gather(agents, userQuery, route.downstreamRequests);
      Trace([RouteEvent(route)] + g.events, Failed)
  }

  /** Once an agent call has raised, later requests change nothing. */
  lemma {:induction false} GatherStaysFailed(agents: Agents, userQuery: string, requests: seq<Schemas.DownstreamRequest>, i: nat)
    requires i <= |requests|
    requires Gather(agents, userQuery, requests[..i]).failed
    ensures Gather(agents, userQuery, requests) == Gather(agents, userQuery, requests[..i])
    decreases |requests| - i
  {
    if i < |requests| {
      assert requests[..i + 1][..i] == requests[..i];
      GatherStaysFailed(agents, userQuery, requests, i + 1);
    } else {
      assert requests[..i] == requests;
    }
  }

  /** The evidence loop of `process_query`: `evidence_bundle` starts as
      `None` and is reassigned by every professional-info request, whose
      bundle is yielded; the loop stops at the first agent call that
      raises. */
  method GatherEvidence(agents: Agents, userQuery: string, requests: seq<Schemas.DownstreamRequest>)
    returns (gathered: seq<AgentEvent>, evidence: Option<Schemas.EvidenceBundle>, failed: bool)
    ensures GatherState(gathered, evidence, failed) == Gather(agents, userQuery, requests)
  {
    gathered, evidence, failed := [], None, false;
    var i := 0;
    while i < |requests|
      invariant 0 <= i <= |requests|
      invariant GatherState(gathered, evidence, false) == Gather(agents, userQuery, requests[..i])
    {
      var request := requests[i];
      assert requests[..i + 1][..i] == requests[..i];
      if request.agent == Schemas.ProfessionalInfo {
        var bundle := agents.professionalInfo(ProfessionalInfoPrompt(userQuery, request));
        if bundle.None? {
          GatherStaysFailed(agents, userQuery, requests, i + 1);
          return gathered, evidence, true;
        }
        evidence := bundle;
        gathered := gathered + [BundleEvent(bundle.value)];
      }
      i := i + 1;
    }
    assert requests[..i] == requests;
  }

  /** The presentation loop of `process_query`: each fragment is appended
      to `final_response` and yielded as it arrives. */
  method StreamAnswer(fragments: seq<string>) returns (streamed: seq<AgentEvent>, finalResponse: string)
    ensures streamed == FragmentEvents(fragments)
    ensures finalResponse == Concat(fragments)
  {
    streamed, finalResponse := [], "";
    var j := 0;
    while j < |fragments|
      invariant 0 <= j <= |fragments|
      invariant finalResponse == Concat(fragments[..j])
      invariant streamed == FragmentEvents(fragments[..j])
    {
      assert fragments[..j + 1] == fragments[..j] + [fragments[j]];
      ConcatSnoc(fragments[..j], fragments[j]);
      finalResponse := finalResponse + fragments[j];
      streamed := streamed + [AgentEvent(FromFinalPresentation, fragments[j])];
      j := j + 1;
    }
    assert fragments[..j] == fragments;
  }

  /** `process_query`: route, gather, then stream the answer. */
  method ProcessQuery(agents: Agents, userQuery: string, conversation: seq<Message>)
    returns (events: seq<AgentEvent>, outcome: Outcome)
    ensures Trace(events, outcome) == Pipeline(agents, userQuery, conversation)
  {
    var routed := agents.orchestrator(conversation);
    if routed.None? {
      return [], Failed;
    }
    var route := routed.value;
    var gathered, evidence, failed := GatherEvidence(agents, userQuery, route.downstreamRequests);
    if failed {
      return [RouteEvent(route)] + gathered, Failed;
    }
    var stream := Presentation(agents, userQuery, route, evidence);
    var streamed, finalResponse := StreamAnswer(stream.fragments);
    events := [RouteEvent(route)] + gathered + streamed;
    outcome := if stream.finished then Completed(finalResponse) else Failed;
  }

  // ---------------------------------------------------------------------
  // What the trace promises

  /** The professional-info requests among `requests`, in order. */
  function ProfessionalInfoRequests(requests: seq<Schemas.DownstreamRequest>): (r: seq<Schemas.DownstreamRequest>)
    ensures |r| <= |requests|
  {
    if requests == [] then []
    else ProfessionalInfoRequests(requests[..|requests| - 1])
         + (if requests[|requests| - 1].agent == Schemas.ProfessionalInfo then [requests[|requests| - 1]] else [])
  }

  /** Every professional-info request gets its bundle. */
  predicate AllGathered(agents: Agents, userQuery: string, requests: seq<Schemas.DownstreamRequest>)
  {
    forall i :: 0 <= i < |requests| && requests[i].agent == Schemas.ProfessionalInfo ==>
      agents.professionalInfo(ProfessionalInfoPrompt(userQuery, requests[i])).Some?
  }

  /** The evidence loop fails exactly when the agent raises on some
      professional-info request. */
  lemma {:induction false} GatherFailsIff(agents: Agents, userQuery: string, requests: seq<Schemas.DownstreamRequest>)
    ensures Gather(agents, userQuery, requests).failed <==> !AllGathered(agents, userQuery, requests)
  {
    if requests != [] {
      var init := requests[..|requests| - 1];
      GatherFailsIff(agents, userQuery, init);
      assert forall i :: 0 <= i < |init| ==> init[i] == requests[i];
      if !AllGathered(agents, userQuery, init) {
        var i :| 0 <= i < |init| && init[i].agent == Schemas.ProfessionalInfo
          && agents.professionalInfo(ProfessionalInfoPrompt(userQuery, init[i])).None?;
        assert requests[i] == init[i];
      }
    }
  }

  /** When every call succeeds: one professional-info event per
      professional-info request, in request order, each carrying the bundle
      for that request's prompt; and the evidence handed on is the bundle of
      the last such request, or none when there was none. */
  lemma {:induction false} GatherEvents(agents: Agents, userQuery: string, requests: seq<Schemas.DownstreamRequest>)
    requires AllGathered(agents, userQuery, requests)
    ensures var g := Gather(agents, userQuery, requests);
            var pis := ProfessionalInfoRequests(requests);
            !g.failed
            && |g.events| == |pis|
            && (forall k :: 0 <= k < |pis| ==>
                  agents.professionalInfo(ProfessionalInfoPrompt(userQuery, pis[k])).Some?
                  && g.events[k] == BundleEvent(agents.professionalInfo(ProfessionalInfoPrompt(userQuery, pis[k])).value))
            && g.evidence == (if pis == [] then None
                              else agents.professionalInfo(ProfessionalInfoPrompt(userQuery, pis[|pis| - 1])))
  {
    if requests != [] {
      var init := requests[..|requests| - 1];
      var last := requests[|requests| - 1];
      assert forall i :: 0 <= i < |init| ==> init[i] == requests[i];
      GatherEvents(agents, userQuery, init);
      var pis0 := ProfessionalInfoRequests(init);
      var pis := ProfessionalInfoRequests(requests);
      if last.agent == Schemas.ProfessionalInfo {
        assert pis == pis0 + [last];
        assert pis[|pis| - 1] == last;
        forall k | 0 <= k < |pis0| ensures pis[k] == pis0[k] { }
      } else {
        assert pis == pis0;
      }
    }
  }

  /** A public-persona or final-presentation request yields nothing and
      leaves the evidence as it was. */
  lemma OtherRequestsChangeNothing(agents: Agents, userQuery: string, requests: seq<Schemas.DownstreamRequest>,
                                   request: Schemas.DownstreamRequest)
    requires request.agent != Schemas.ProfessionalInfo
    ensures Gather(agents, userQuery, requests + [request]) == Gather(agents, userQuery, requests)
  {
    assert (requests + [request])[..|requests|] == requests;
  }

  /** The outputs of the final-presentation events of a trace, in order. */
  function PresentationOutputs(events: seq<AgentEvent>): seq<string>
  {
    if events == [] then []
    else PresentationOutputs(events[..|events| - 1])
         + (if events[|events| - 1].source == FromFinalPresentation then [events[|events| - 1].output] else [])
  }

  lemma {:induction false} PresentationOutputsAppend(a: seq<AgentEvent>, b: seq<AgentEvent>)
    ensures PresentationOutputs(a + b) == PresentationOutputs(a) + PresentationOutputs(b)
    decreases |b|
  {
    if b == [] {
      assert a + b == a;
    } else {
      var b0 := b[..|b| - 1];
      PresentationOutputsAppend(a, b0);
      assert (a + b)[..|a + b| - 1] == a + b0;
    }
  }

  lemma {:induction false} PresentationOutputsNone(events: seq<AgentEvent>)
    requires forall k :: 0 <= k < |events| ==> events[k].source != FromFinalPresentation
    ensures PresentationOutputs(events) == []
  {
    if events != [] {
      PresentationOutputsNone(events[..|events| - 1]);
    }
  }

  lemma {:induction false} PresentationOutputsFragments(fragments: seq<string>)
    ensures PresentationOutputs(FragmentEvents(fragments)) == fragments
  {
    if fragments != [] {
      var init := fragments[..|fragments| - 1];
      PresentationOutputsFragments(init);
      assert FragmentEvents(fragments)[..|fragments| - 1] == FragmentEvents(init);
    }
  }

  lemma {:induction false} GatherEventSources(agents: Agents, userQuery: string, requests: seq<Schemas.DownstreamRequest>)
    ensures forall k :: 0 <= k < |Gather(agents, userQuery, requests).events| ==>
      Gather(agents, userQuery, requests).events[k].source == FromProfessionalInfo
  {
    if requests != [] {
      GatherEventSources(agents, userQuery, requests[..|requests| - 1]);
    }
  }

  /** The routing event comes first and only once: a query whose route
      cannot be parsed yields nothing, otherwise the first event carries
      the route's JSON and every later event comes from another agent. */
  lemma RouteEventFirst(agents: Agents, userQuery: string, conversation: seq<Message>)
    ensures agents.orchestrator(conversation).None? ==> Pipeline(agents, userQuery, conversation) == Trace([], Failed)
    ensures agents.orchestrator(conversation).Some? ==>
      var events := Pipeline(agents, userQuery, conversation).events;
      |events| >= 1 && events[0] == RouteEvent(agents.orchestrator(conversation).value)
      && forall k :: 1 <= k < |events| ==> events[k].source != FromOrchestrator
  {
    match agents.orchestrator(conversation)
    case None =>
    case Some(route) =>
      GatherEventSources(agents, userQuery, route.downstreamRequests);
  }

  /** A completed query had every professional-info call succeed, and
      yielded the route, then the evidence events, then one presentation
      event per fragment, in order. */
  lemma CompletedTrace(agents: Agents, userQuery: string, conversation: seq<Message>)
    requires Pipeline(agents, userQuery, conversation).outcome.Completed?
    ensures var route := agents.orchestrator(conversation).value;
            var g := Gather(agents, userQuery, route.downstreamRequests);
            AllGathered(agents, userQuery, route.downstreamRequests)
            && Presentation(agents, userQuery, route, g.evidence).finished
            && Pipeline(agents, userQuery, conversation).events
               == [RouteEvent(route)] + g.events + FragmentEvents(Presentation(agents, userQuery, route, g.evidence).fragments)
  {
    var route := agents.orchestrator(conversation).value;
    GatherFailsIff(agents, userQuery, route.downstreamRequests);
  }

  /** Events from other agents followed by the fragments' events: the
      presentation outputs are the fragments, and no other event follows a
      presentation event. */
  lemma FragmentsLast(head: seq<AgentEvent>, fragments: seq<string>)
    requires forall k :: 0 <= k < |head| ==> head[k].source != FromFinalPresentation
    ensures PresentationOutputs(head + FragmentEvents(fragments)) == fragments
    ensures var events := head + FragmentEvents(fragments);
            forall i, j :: 0 <= i < j < |events| && events[i].source == FromFinalPresentation ==>
              events[j].source == FromFinalPresentation
  {
    var tail := FragmentEvents(fragments);
    var events := head + tail;
    PresentationOutputsNone(head);
    PresentationOutputsAppend(head, tail);
    PresentationOutputsFragments(fragments);
    forall i, j | 0 <= i < j < |events| && events[i].source == FromFinalPresentation
      ensures events[j].source == FromFinalPresentation
    {
      assert i >= |head|;
      assert events[j] == tail[j - |head|];
    }
  }

  /** In a completed query the presentation events come last, they carry
      the fragments in order, and the answer is the concatenation of what
      they carried. */
  lemma CompletedAnswer(agents: Agents, userQuery: string, conversation: seq<Message>)
    requires Pipeline(agents, userQuery, conversation).outcome.Completed?
    ensures var t := Pipeline(agents, userQuery, conversation);
            var route := agents.orchestrator(conversation).value;
            var g := Gather(agents, userQuery, route.downstreamRequests);
            PresentationOutputs(t.events) == Presentation(agents, userQuery, route, g.evidence).fragments
            && t.outcome.finalResponse == Concat(PresentationOutputs(t.events))
            && (forall i, j :: 0 <= i < j < |t.events| && t.events[i].source == FromFinalPresentation ==>
                  t.events[j].source == FromFinalPresentation)
  {
    var route := agents.orchestrator(conversation).value;
    var g := Gather(agents, userQuery, route.downstreamRequests);
    GatherEventSources(agents, userQuery, route.downstreamRequests);
    var head := [RouteEvent(route)] + g.events;
    assert forall k :: 0 <= k < |head| ==> head[k].source != FromFinalPresentation;
    FragmentsLast(head, Presentation(agents, userQuery, route, g.evidence).fragments);
  }

  /** When the presentation agent raises part way, the query fails and the
      fragments it had already yielded stay in the trace, last and in
      order. */
  lemma PresentationFailureKeepsFragments(agents: Agents, userQuery: string, conversation: seq<Message>)
    requires agents.orchestrator(conversation).Some?
    requires !Gather(agents, userQuery, agents.orchestrator(conversation).value.downstreamRequests).failed
    requires !Presentation(agents, userQuery, agents.orchestrator(conversation).value,
                           Gather(agents, userQuery, agents.orchestrator(conversation).value.downstreamRequests).evidence).finished
    ensures var t := Pipeline(agents, userQuery, conversation);
            var route := agents.orchestrator(conversation).value;
            var g := Gather(agents, userQuery, route.downstreamRequests);
            var fragments := Presentation(agents, userQuery, route, g.evidence).fragments;
            t.outcome == Failed
            && t.events == [RouteEvent(route)] + g.events + FragmentEvents(fragments)
            && PresentationOutputs(t.events) == fragments
  {
    var route := agents.orchestrator(conversation).value;
    var g := Gather(agents, userQuery, route.downstreamRequests);
    GatherEventSources(agents, userQuery, route.downstreamRequests);
    var head := [RouteEvent(route)] + g.events;
    assert forall k :: 0 <= k < |head| ==> head[k].source != FromFinalPresentation;
    FragmentsLast(head, Presentation(agents, userQuery, route, g.evidence).fragments);
  }

  /** As written, no query is ever answered: every query fails, nothing
      from the presentation stage is yielded, and what is yielded is the
      part of the streaming trace before the presentation's fragments. */
  lemma AsWrittenNeverAnswers(agents: Agents, userQuery: string, conversation: seq<Message>)
    ensures var t := PipelineAsWritten(agents, userQuery, conversation);
            t.outcome == Failed
            && PresentationOutputs(t.events) == []
            && t.events <= Pipeline(agents, userQuery, conversation).events
  {
    var t := PipelineAsWritten(agents, userQuery, conversation);
    match agents.orchestrator(conversation)
    case None =>
    case Some(route) =>
      var g := Gather(agents, userQuery, route.downstreamRequests);
      GatherEventSources(agents, userQuery, route.downstreamRequests);
      assert forall k :: 0 <= k < |t.events| ==> t.events[k].source != FromFinalPresentation;
      PresentationOutputsNone(t.events);
  }
}

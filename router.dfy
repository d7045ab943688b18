/** The request and response shapes shared by both text-generation backends, and the
    router that picks a backend by task type (src/llm/router.py). A backend is a
    function from request to response or provider-tagged error: the HTTP clients
    themselves are not part of this model. */
module Router {
  import opened Wrappers
  import opened Errors

  datatype Request = Request(prompt: string, systemPrompt: Option<string>, temperature: real, maxTokens: nat)

  datatype Response = Response(text: string, provider: string, model: string, tokensUsed: int, durationMs: real)

  /** One backend's `generate`. */
  type Provider = Request -> Result<Response, Error>

  datatype ProviderName = Mamay | Claude {
    function Name(): string {
      match this
      case Mamay => "mamay"
      case Claude => "claude"
    }
  }

  /** The two backends an `LLMRouter` holds. */
  datatype Backends = Backends(mamay: Provider, claude: Provider)

  /** A backend that stamps its own name on every response it returns. */
  ghost predicate TagsResponses(p: Provider, name: ProviderName) {
    forall q :: p(q).Ok? ==> p(q).value.provider == name.Name()
  }

  /** A backend whose every failure is an `LLMError` (what both HTTP clients raise). */
  ghost predicate FailsWithLlmError(p: Provider) {
    forall q :: p(q).Err? ==> p(q).error.Llm?
  }

  ghost predicate NeverFails(p: Provider) {
    forall q :: p(q).Ok?
  }

  const ComplianceTasks: set<string> := {"compliance_check", "quality_validation", "structure_review"}
  const GenerationTasks: set<string> := {"section_generation", "content_creation", "requirements_analysis"}

  /** One backend invocation the router made. */
  datatype Call = Call(provider: ProviderName, request: Request)

  /** What `route` returned or raised, with the backend calls it made, in order. */
  datatype Routed = Routed(outcome: Result<Response, Error>, calls: seq<Call>)

  function Invoke(c: Call, mamay: Provider, claude: Provider): Result<Response, Error> {
    match c.provider
    case Mamay => mamay(c.request)
    case Claude => claude(c.request)
  }

  /** `LLMRouter.route`. Compliance-class tasks go to Claude alone; every other task
      type goes to MamayLM, and an `LLMError` from it is retried once on Claude. */
  function Route(taskType: string, request: Request, mamay: Provider, claude: Provider): (r: Routed)
    ensures 1 <= |r.calls| <= 2
    ensures forall i :: 0 <= i < |r.calls| ==> r.calls[i].request == request
    ensures r.outcome == Invoke(r.calls[|r.calls| - 1], mamay, claude)
    ensures taskType in ComplianceTasks ==> forall i :: 0 <= i < |r.calls| ==> r.calls[i].provider == Claude
    ensures taskType !in ComplianceTasks ==> r.calls[0].provider == Mamay
    ensures |r.calls| == 2 <==> taskType !in ComplianceTasks && mamay(request).Err? && mamay(request).error.Llm?
    ensures |r.calls| == 2 ==> r.calls[1].provider == Claude
  {
    if taskType in ComplianceTasks then
      Routed(claude(request), [Call(Claude, request)])
    else
      var first := mamay(request);
      if first.Err? && first.error.Llm? then
        Routed(claude(request), [Call(Mamay, request), Call(Claude, request)])
      else
        Routed(first, [Call(Mamay, request)])
  }

  /** A generation-class task whose MamayLM call fails with an `LLMError` is answered,
      if at all, by Claude: the response names Claude as its provider. */
  lemma FallbackAnswersAsClaude(taskType: string, request: Request, mamay: Provider, claude: Provider)
    requires TagsResponses(claude, Claude)
    requires taskType !in ComplianceTasks
    requires mamay(request).Err? && mamay(request).error.Llm?
    ensures var r := Route(taskType, request, mamay, claude);
            r.outcome == claude(request) &&
            (r.outcome.Ok? ==> r.outcome.value.provider == "claude")
  {
    var r := Route(taskType, request, mamay, claude);
    assert |r.calls| == 2;
  }

  /** A compliance-class task is answered by Claude even when MamayLM is healthy. */
  lemma ComplianceAlwaysClaude(taskType: string, request: Request, mamay: Provider, claude: Provider)
    requires TagsResponses(claude, Claude)
    requires taskType in ComplianceTasks
    ensures var r := Route(taskType, request, mamay, claude);
            r.outcome == claude(request) && (r.outcome.Ok? ==> r.outcome.value.provider == "claude")
  {
    var r := Route(taskType, request, mamay, claude);
    assert r.calls[|r.calls| - 1].provider == Claude;
  }

  /** Only an `LLMError` triggers the fallback: any other MamayLM failure reaches the
      caller unchanged and Claude is not called. */
  lemma OtherErrorsPropagate(taskType: string, request: Request, mamay: Provider, claude: Provider)
    requires taskType !in ComplianceTasks
    requires mamay(request).Err? && !mamay(request).error.Llm?
    ensures Route(taskType, request, mamay, claude) == Routed(mamay(request), [Call(Mamay, request)])
  {
    var r := Route(taskType, request, mamay, claude);
    assert |r.calls| == 1;
  }

  /** With a Claude backend that always answers and a MamayLM backend that fails only
      with `LLMError`, routing never raises, whatever the generation task type. */
  lemma RouteTotalWhenClaudeUp(taskType: string, request: Request, mamay: Provider, claude: Provider)
    requires NeverFails(claude) && FailsWithLlmError(mamay)
    ensures Route(taskType, request, mamay, claude).outcome.Ok?
  {
    var r := Route(taskType, request, mamay, claude);
    assert claude(request).Ok?;
    if mamay(request).Err? {
      assert mamay(request).error.Llm?;
    }
  }

  /** `LLMRouter.get_client`. */
  function GetClient(provider: string): (r: Result<ProviderName, Error>)
    ensures r.Ok? <==> provider == "mamay" || provider == "claude"
    ensures r.Ok? ==> r.value.Name() == provider
    ensures r.Err? ==> r.error == Value("Невідомий LLM провайдер: " + provider)
  {
    if provider == "mamay" then Ok(Mamay)
    else if provider == "claude" then Ok(Claude)
    else Err(Value("Невідомий LLM провайдер: " + provider))
  }

  /** `get_client` and `Name` are inverse: every backend is found under its own name. */
  lemma GetClientByName(p: ProviderName)
    ensures GetClient(p.Name()) == Ok(p)
  {
  }

  /** `LLMRouter.health_check`, given the two backends' own probe results. */
  function HealthCheck(mamayUp: bool, claudeUp: bool): (r: map<string, bool>)
    ensures r.Keys == {"mamay", "claude"}
    ensures r["mamay"] == mamayUp && r["claude"] == claudeUp
  {
    map["mamay" := mamayUp, "claude" := claudeUp]
  }
}

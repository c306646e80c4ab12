/**
 * The content provider of the backend (`AIService`): a fixed-priority fallback chain
 * over configured providers ending in a deterministic placeholder, the defensive
 * resolver that turns provider text into a structured artifact or a stage default,
 * the constant stage defaults, and the fixed deployment configuration.
 *
 * The provider keys are read once, when the service is built, so the service is a
 * value (`Config`). The prompt text of each stage is not modelled: what the remote
 * endpoint answers to it is the `HttpOutcome` parameter.
 */
module AiService {
  import opened Wrappers
  import opened Json
  import opened Text

  /** The three keys `AIService.__init__` reads from the environment. */
  datatype Config = Config(cerebrasKey: Option<string>, openaiKey: Option<string>, anthropicKey: Option<string>)

  /** Python truthiness of an environment variable: unset or empty means not configured. */
  predicate IsSet(key: Option<string>)
  {
    key.Some? && key.value != ""
  }

  /** What one HTTP request does: it answers with a status code and, for a chat
      completion, the JSON found at `choices[0].message.content` (`None` when the body
      is not JSON or lacks that path), or it raises (timeout, connection error). */
  datatype HttpOutcome = Answered(status: int, content: Option<Value>) | Raised(message: string)

  predicate NoBraces(s: string)
  {
    '{' !in s && '}' !in s
  }

  /** `_get_mock_response(task_type)`. */
  function MockResponse(taskType: string): (r: string)
    ensures NoBraces(taskType) ==> NoBraces(r)
    ensures "Mock " <= r
  {
    assert NoBraces(" response - AI service") && NoBraces(" integration in progress");
    assert " response - AI service integration in progress" == " response - AI service" + " integration in progress";
    "Mock " + taskType + " response - AI service integration in progress"
  }

  /** `_call_cerebras`: a placeholder that always answers with its own mock text. */
  function CallCerebras(): (r: Value)
    ensures r.Str? && NoBraces(r.s)
  {
    assert NoBraces("cerebras_response");
    Str(MockResponse("cerebras_response"))
  }

  /** `_call_openai`: the message content on HTTP 200, the `openai_error` mock on any
      other status, on a body without the content, and on any exception. */
  function CallOpenAi(outcome: HttpOutcome): (r: Value)
    ensures outcome.Answered? && outcome.status == 200 && outcome.content.Some? ==> r == outcome.content.value
    ensures !(outcome.Answered? && outcome.status == 200 && outcome.content.Some?) ==>
      r == Str(MockResponse("openai_error")) && NoBraces(r.s)
  {
    assert NoBraces("openai_error");
    match outcome
    case Answered(status, content) =>
      if status == 200 && content.Some? then content.value else Str(MockResponse("openai_error"))
    case Raised(_) => Str(MockResponse("openai_error"))
  }

  /** The only way provider text reaches the resolver: Cerebras is not configured,
      OpenAI is, and it answered 200 with content. */
  predicate ProviderAnswered(cfg: Config, outcome: HttpOutcome)
  {
    !IsSet(cfg.cerebrasKey) && IsSet(cfg.openaiKey) &&
    outcome.Answered? && outcome.status == 200 && outcome.content.Some?
  }

  /** `_call_ai_service(prompt, task_type)`: Cerebras if its key is set, else OpenAI if
      its key is set, else the task's mock text. Neither provider call can raise, so the
      `except` clauses never fire and the result is always a value. */
  function CallAiService(cfg: Config, taskType: string, outcome: HttpOutcome): (r: Value)
    ensures ProviderAnswered(cfg, outcome) ==> r == outcome.content.value
    ensures !ProviderAnswered(cfg, outcome) && NoBraces(taskType) ==> r.Str? && NoBraces(r.s) && "Mock " <= r.s
    ensures IsSet(cfg.cerebrasKey) ==> r == Str(MockResponse("cerebras_response"))
    ensures !IsSet(cfg.cerebrasKey) && !IsSet(cfg.openaiKey) ==> r == Str(MockResponse(taskType))
    ensures !IsSet(cfg.cerebrasKey) && IsSet(cfg.openaiKey) && !ProviderAnswered(cfg, outcome) ==>
      r == Str(MockResponse("openai_error"))
  {
    if IsSet(cfg.cerebrasKey) then CallCerebras()
    else if IsSet(cfg.openaiKey) then CallOpenAi(outcome)
    else Str(MockResponse(taskType))
  }

  /** `json.loads` where Python would read the empty string: it always raises. */
  function Loads(codec: JsonCodec, text: string): Option<Value>
  {
    if text == "" then None else codec.loads(text)
  }

  /** The text `_parse_json_response` hands to `json.loads`: from the first `{` to the
      last `}` inclusive, empty when the last `}` comes before the first `{`. */
  function BracedSlice(s: string): (r: string)
    requires '{' in s && '}' in s
    ensures r != "" ==> r[0] == '{' && r[|r| - 1] == '}'
  {
    Slice(s, Find(s, '{'), RFind(s, '}') + 1)
  }

  /** `_parse_json_response(response, default_value)`. */
  function ParseJsonResponse(codec: JsonCodec, response: Value, default: Value): (r: Value)
    ensures response.Obj? ==> r == response
    ensures !response.Str? && !response.Obj? ==> r == default
    ensures response.Str? && !('{' in response.s && '}' in response.s) ==> r == default
    ensures response.Str? && '{' in response.s && '}' in response.s ==>
      (r == default <==> Loads(codec, BracedSlice(response.s)) in {None, Some(default)})
    ensures response.Str? && '{' in response.s && '}' in response.s && r != default ==>
      Loads(codec, BracedSlice(response.s)) == Some(r)
  {
    match response
    case Str(s) =>
      var start := Find(s, '{');
      var end := RFind(s, '}') + 1;
      if start != -1 && end != 0 then
        match Loads(codec, BracedSlice(s))
        case Some(v) => v
        case None => default
      else default
    case Obj(_) => response
    case _ => default
  }

  /** Text around a braced body: the resolver parses exactly the body. */
  lemma ParseEnclosed(codec: JsonCodec, pre: string, body: string, post: string, default: Value)
    requires '{' !in pre && '}' !in post
    requires body != [] && body[0] == '{' && body[|body| - 1] == '}'
    ensures ParseJsonResponse(codec, Str(pre + body + post), default) ==
      match codec.loads(body) case Some(v) => v case None => default
  {
    var s := pre + body + post;
    assert (body + post)[0] == '{';
    assert s == pre + (body + post);
    FindAfter(pre, body + post, '{');
    assert (pre + body)[|pre + body| - 1] == '}';
    RFindBefore(pre + body, post, '}');
    var start, end := Find(s, '{'), RFind(s, '}') + 1;
    assert start == |pre| && end == |pre| + |body|;
    assert s[start..end] == body;
    assert BracedSlice(s) == body;
    assert Loads(codec, body) == codec.loads(body);
  }

  /** When every `}` comes before the first `{`, the slice is empty and the default wins. */
  lemma ParseReversed(codec: JsonCodec, s: string, default: Value)
    requires Lawful(codec)
    requires '{' in s && '}' in s && RFind(s, '}') < Find(s, '{')
    ensures ParseJsonResponse(codec, Str(s), default) == default
  {
    assert BracedSlice(s) == "";
  }

  /** The value a default carries under `"error"`: `None`, or `str(e)`. */
  function ErrorValue(error: Option<string>): Value
  {
    OptStr(error)
  }

  function DefaultRequirements(error: Option<string>): Value
  {
    Obj(map[
      "overview" := Obj(map[
        "app_name" := Str("Generated App"),
        "category" := Str("web-application"),
        "target_audience" := Str("General users"),
        "core_value" := Str("Provides useful functionality")]),
      "functional_requirements" := Arr([Obj(map[
        "id" := Str("FR001"),
        "title" := Str("User Interface"),
        "description" := Str("Modern, responsive user interface"),
        "priority" := Str("high"),
        "complexity" := Str("medium")])]),
      "technical_requirements" := Obj(map[
        "frontend" := Obj(map[
          "framework" := Str("React"),
          "libraries" := StrList(["React Router", "Tailwind CSS"]),
          "features" := StrList(["Responsive Design", "Modern UI"])]),
        "backend" := Obj(map[
          "language" := Str("Node.js"),
          "database" := Str("PostgreSQL"),
          "apis" := StrList(["REST API"]),
          "services" := StrList(["Authentication"])])]),
      "estimated_complexity" := Str("medium"),
      "estimated_timeframe" := Str("2-4 weeks"),
      "error" := ErrorValue(error)])
  }

  function DefaultArchitecture(error: Option<string>): Value
  {
    Obj(map[
      "system_overview" := Obj(map[
        "architecture_pattern" := Str("MVC"),
        "scalability_approach" := Str("Auto-scaling"),
        "security_model" := Str("JWT")]),
      "frontend_architecture" := Obj(map[
        "framework" := Str("React"),
        "state_management" := Str("Context"),
        "routing" := Str("React Router"),
        "styling" := Str("Tailwind CSS"),
        "build_tool" := Str("Vite")]),
      "backend_architecture" := Obj(map[
        "framework" := Str("Express.js"),
        "database" := Obj(map["primary" := Str("PostgreSQL"), "caching" := Str("Redis")]),
        "api_design" := Str("REST"),
        "authentication" := Str("JWT")]),
      "error" := ErrorValue(error)])
  }

  function DefaultDesign(error: Option<string>): Value
  {
    Obj(map[
      "design_system" := Obj(map[
        "color_palette" := Obj(map[
          "primary" := Str("#3B82F6"),
          "secondary" := Str("#10B981"),
          "accent" := Str("#F59E0B"),
          "neutral" := Str("#6B7280"),
          "background" := Str("#F9FAFB"),
          "text" := Str("#111827")]),
        "typography" := Obj(map[
          "font_family" := Str("Inter, system-ui, sans-serif"),
          "headings" := Str("font-bold"),
          "body" := Str("font-normal")])]),
      "error" := ErrorValue(error)])
  }

  function DefaultFrontendCode(error: Option<string>): Value
  {
    Obj(map[
      "app_component" := Str("// React App component code"),
      "components" := Obj(map["Header" := Str("// Header component"), "Dashboard" := Str("// Dashboard component")]),
      "error" := ErrorValue(error)])
  }

  function DefaultBackendCode(error: Option<string>): Value
  {
    Obj(map[
      "server_js" := Str("// Express server code"),
      "routes" := Obj(map["auth" := Str("// Auth routes"), "api" := Str("// API routes")]),
      "error" := ErrorValue(error)])
  }

  /** The five provider-backed stage methods of `AIService`. */
  datatype Task = Requirements | Architecture | Design | FrontendCode | BackendCode

  /** The `task_type` each stage method passes to `_call_ai_service`. */
  function TaskType(t: Task): (r: string)
    ensures NoBraces(r)
  {
    match t
    case Requirements =>
      assert NoBraces("requirements_analysis"); "requirements_analysis"
    case Architecture =>
      assert NoBraces("architecture_design"); "architecture_design"
    case Design =>
      assert NoBraces("ui_design"); "ui_design"
    case FrontendCode =>
      assert NoBraces("frontend_code"); "frontend_code"
    case BackendCode =>
      assert NoBraces("backend_code"); "backend_code"
  }

  /** The `_get_default_*` of each stage method. */
  function DefaultFor(t: Task, error: Option<string>): Value
  {
    match t
    case Requirements => DefaultRequirements(error)
    case Architecture => DefaultArchitecture(error)
    case Design => DefaultDesign(error)
    case FrontendCode => DefaultFrontendCode(error)
    case BackendCode => DefaultBackendCode(error)
  }

  /** The defaults are objects with the listed keys; `error` holds `None` or the
      exception text. */
  lemma DefaultRequirementsKeys(error: Option<string>)
    ensures DefaultRequirements(error).Obj? && DefaultRequirements(error).fields.Keys == {"overview", "functional_requirements", "technical_requirements", "estimated_complexity", "estimated_timeframe", "error"}
    ensures DefaultRequirements(error).fields["error"] == ErrorValue(error)
  {
  }

  lemma DefaultArchitectureKeys(error: Option<string>)
    ensures DefaultArchitecture(error).Obj? && DefaultArchitecture(error).fields.Keys == {"system_overview", "frontend_architecture", "backend_architecture", "error"}
    ensures DefaultArchitecture(error).fields["error"] == ErrorValue(error)
  {
  }

  lemma DefaultDesignKeys(error: Option<string>)
    ensures DefaultDesign(error).Obj? && DefaultDesign(error).fields.Keys == {"design_system", "error"}
    ensures DefaultDesign(error).fields["error"] == ErrorValue(error)
  {
  }

  lemma DefaultFrontendCodeKeys(error: Option<string>)
    ensures DefaultFrontendCode(error).Obj? && DefaultFrontendCode(error).fields.Keys == {"app_component", "components", "error"}
    ensures DefaultFrontendCode(error).fields["error"] == ErrorValue(error)
  {
  }

  lemma DefaultBackendCodeKeys(error: Option<string>)
    ensures DefaultBackendCode(error).Obj? && DefaultBackendCode(error).fields.Keys == {"server_js", "routes", "error"}
    ensures DefaultBackendCode(error).fields["error"] == ErrorValue(error)
  {
  }

  /** Every stage default is a non-empty object carrying its `error`. */
  lemma DefaultForShape(t: Task, error: Option<string>)
    ensures DefaultFor(t, error).Obj? && "error" in DefaultFor(t, error).fields
    ensures DefaultFor(t, error).fields["error"] == ErrorValue(error)
    ensures Truthy(DefaultFor(t, error))
  {
    match t
    case Requirements => DefaultRequirementsKeys(error);
    case Architecture => DefaultArchitectureKeys(error);
    case Design => DefaultDesignKeys(error);
    case FrontendCode => DefaultFrontendCodeKeys(error);
    case BackendCode => DefaultBackendCodeKeys(error);
  }

  /** `analyze_requirements`, `design_architecture`, `create_design`,
      `generate_frontend_code` and `generate_backend_code`: resolve the provider's
      answer against the stage default. Unless OpenAI alone is configured and answers,
      the answer is brace-free mock text, so the result is exactly the default with
      `error` = None. The `except` branch that would return the default with
      `error` = `str(e)` cannot fire, since neither callee raises. */
  function RunTask(cfg: Config, codec: JsonCodec, t: Task, outcome: HttpOutcome): (r: Value)
    ensures !ProviderAnswered(cfg, outcome) ==> r == DefaultFor(t, None)
    ensures ProviderAnswered(cfg, outcome) ==>
      r == ParseJsonResponse(codec, outcome.content.value, DefaultFor(t, None))
  {
    ParseJsonResponse(codec, CallAiService(cfg, TaskType(t), outcome), DefaultFor(t, None))
  }

  /** With Cerebras configured every stage yields its default: its placeholder has no braces. */
  lemma CerebrasConfiguredGivesDefaults(cfg: Config, codec: JsonCodec, t: Task, outcome: HttpOutcome)
    requires IsSet(cfg.cerebrasKey)
    ensures RunTask(cfg, codec, t, outcome) == DefaultFor(t, None)
  {
  }

  /** With no provider key configured every stage yields its default. */
  lemma NoKeysGivesDefaults(cfg: Config, codec: JsonCodec, t: Task, outcome: HttpOutcome)
    requires !IsSet(cfg.cerebrasKey) && !IsSet(cfg.openaiKey)
    ensures RunTask(cfg, codec, t, outcome) == DefaultFor(t, None)
  {
  }

  /** `create_deployment_config`: the same fixed configuration whatever its arguments. */
  const DeploymentConfig: Value :=
    Obj(map[
      "platform" := Str("Vercel"),
      "build_command" := Str("npm run build"),
      "output_directory" := Str("dist"),
      "environment_variables" := StrList(["NODE_ENV=production", "API_URL=https://api.example.com"]),
      "domains" := StrList(["app.example.com"]),
      "ssl" := Bool(true),
      "cdn" := Bool(true),
      "monitoring" := Obj(map[
        "enabled" := Bool(true),
        "alerts" := StrList(["error_rate", "response_time"])])])

  function CreateDeploymentConfig(description: string, previousResults: Value): Value
  {
    DeploymentConfig
  }

  /** The configuration targets Vercel with SSL, under exactly these keys. */
  lemma DeploymentConfigShape()
    ensures DeploymentConfig.Obj? && DeploymentConfig.fields.Keys ==
      {"platform", "build_command", "output_directory", "environment_variables", "domains", "ssl", "cdn", "monitoring"}
    ensures DeploymentConfig.fields["platform"] == Str("Vercel") && DeploymentConfig.fields["ssl"] == Bool(true)
    ensures Truthy(DeploymentConfig)
  {
  }
}

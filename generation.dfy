/**
 * The generation orchestrator: the start and cancel handlers with their guards, the
 * background worker that runs the six-stage pipeline with progress, cooperative
 * cancellation, persisted artifacts and a final or failed state, and the two keyword
 * classifiers used when a run completes.
 *
 * The worker runs sequentially. Everything the original leaves to the world is an
 * explicit `Env`: how much the clock advances before each of the worker's actions
 * (`time.time`, `datetime.utcnow` and database latency; `time.sleep(2)` adds its two
 * seconds on top), whether a cancel request is handled just before an action (the
 * cancel handler running in another request), what the OpenAI endpoint answers for
 * each stage, the value `random.randint(85, 98)` draws, and an exception raised at
 * one action. Time is in milliseconds.
 */
module Generation {
  import opened Wrappers
  import opened Json
  import opened Text
  import opened AiService
  import opened ProjectModel

  // ---------------------------------------------------------------------------
  // The stage table

  datatype StageId = Analyst | Architect | Designer | Frontend | Backend | Deployer

  datatype Agent = Agent(id: StageId, name: string, duration: nat)

  /** The `agents` list: pipeline order, display names, nominal durations in seconds. */
  const Agents: seq<Agent> := [
    Agent(Analyst, "Requirements Analyst", 30),
    Agent(Architect, "System Architect", 45),
    Agent(Designer, "UI/UX Designer", 40),
    Agent(Frontend, "Frontend Developer", 60),
    Agent(Backend, "Backend Developer", 55),
    Agent(Deployer, "DevOps Engineer", 35)]

  const StageCount := 6

  /** `total_duration`. */
  const TotalDuration: nat := 265

  /** `elapsed_time` when stage `i` begins: the durations of the stages before it. */
  function ElapsedBefore(i: nat): (e: nat)
    requires i <= StageCount
  {
    if i == 0 then 0 else ElapsedBefore(i - 1) + Agents[i - 1].duration
  }

  /** The stages begin at 0, 30, 75, 115, 175 and 230 s and the last ends at 265 s. */
  lemma ElapsedValues()
    ensures ElapsedBefore(0) == 0 && ElapsedBefore(1) == 30 && ElapsedBefore(2) == 75
    ensures ElapsedBefore(3) == 115 && ElapsedBefore(4) == 175 && ElapsedBefore(5) == 230
    ensures ElapsedBefore(StageCount) == TotalDuration
  {
  }

  lemma ElapsedMonotone(i: nat, j: nat)
    requires i <= j <= StageCount
    ensures ElapsedBefore(i) <= ElapsedBefore(j) <= TotalDuration
  {
    ElapsedValues();
  }

  const TotalMs: nat := TotalDuration * 1000

  /** The progress written when stage `i` begins, `int(elapsed_time / total_duration * 100)`;
      stage `StageCount` stands for the end of the last stage. */
  function BoundaryProgress(i: nat): (p: int)
    requires i <= StageCount
    ensures 0 <= p <= 100
    ensures i == StageCount ==> p == 100
  {
    ElapsedMonotone(i, StageCount);
    ElapsedValues();
    ScaledMonotone(ElapsedBefore(i) * 100000, TotalDuration * 100000);
    ElapsedBefore(i) * 100000 / TotalMs
  }

  /** The boundary writes of a run are 0, 11, 28, 43, 66 and 86. */
  lemma BoundaryValues()
    ensures BoundaryProgress(0) == 0 && BoundaryProgress(1) == 11 && BoundaryProgress(2) == 28
    ensures BoundaryProgress(3) == 43 && BoundaryProgress(4) == 66 && BoundaryProgress(5) == 86
  {
    ElapsedValues();
  }

  lemma ScaledMonotone(a: nat, b: nat)
    requires a <= b
    ensures a / TotalMs <= b / TotalMs
  {
  }

  /** The in-stage progress as written: `min(int((elapsed_time + agent_elapsed) /
      total_duration * 100), 100)`, where `agent_elapsed` is read from the clock after
      the loop test, so it may exceed the stage's duration. */
  function InStageProgressAsWritten(i: nat, agentElapsedMs: nat): int
    requires i < StageCount
  {
    var p := (ElapsedBefore(i) * 1000 + agentElapsedMs) * 100 / TotalMs;
    if p < 100 then p else 100
  }

  /** The loop test of stage 5 reads 54.9 s (< 55 s, so the body runs), the status query
      takes 0.7 s, and the body writes 87 %; the next boundary then writes 86 %. */
  lemma ProgressCanDecrease()
    ensures 54900 < Agents[4].duration * 1000
    ensures InStageProgressAsWritten(4, 55600) == 87
    ensures BoundaryProgress(5) == 86
  {
    ElapsedValues();
  }

  /** The in-stage progress with `agent_elapsed` capped at the stage's duration: it lies
      between the stage's boundary writes, so progress never goes back, and the `min`
      with 100 no longer changes anything. */
  function InStageProgress(i: nat, agentElapsedMs: nat): (p: int)
    requires i < StageCount
    ensures BoundaryProgress(i) <= p <= BoundaryProgress(i + 1)
    ensures agentElapsedMs == 0 ==> p == BoundaryProgress(i)
  {
    var d := Agents[i].duration * 1000;
    var capped := if agentElapsedMs < d then agentElapsedMs else d;
    var x := (ElapsedBefore(i) * 1000 + capped) * 100;
    assert ElapsedBefore(i + 1) == ElapsedBefore(i) + Agents[i].duration;
    ElapsedMonotone(i + 1, StageCount);
    ScaledMonotone(ElapsedBefore(i) * 100000, x);
    ScaledMonotone(x, ElapsedBefore(i + 1) * 100000);
    x / TotalMs
  }

  /** Capping the stage clock makes the in-stage write nondecreasing in time. */
  lemma InStageMonotone(i: nat, a: nat, b: nat)
    requires i < StageCount && a <= b
    ensures InStageProgress(i, a) <= InStageProgress(i, b)
  {
    var d := Agents[i].duration * 1000;
    var ca := if a < d then a else d;
    var cb := if b < d then b else d;
    ScaledMonotone((ElapsedBefore(i) * 1000 + ca) * 100, (ElapsedBefore(i) * 1000 + cb) * 100);
  }

  /** `build_time`: `f"{int(total_duration / 60)}m {total_duration % 60}s"`. */
  function BuildTime(total: nat): string
  {
    NatToString(total / 60) + "m " + NatToString(total % 60) + "s"
  }

  lemma BuildTimeOfPipeline()
    ensures BuildTime(TotalDuration) == "4m 25s"
  {
  }

  // ---------------------------------------------------------------------------
  // Stage work

  /** The key of `generation_results` each stage fills. */
  function ResultKey(id: StageId): string
  {
    match id
    case Analyst => "specifications"
    case Architect => "architecture"
    case Designer => "design"
    case Frontend => "frontend_code"
    case Backend => "backend_code"
    case Deployer => "deployment"
  }

  /** The `AIService` method each provider-backed stage calls. */
  function TaskOf(id: StageId): Task
    requires id != Deployer
  {
    match id
    case Analyst => Requirements
    case Architect => Architecture
    case Designer => Design
    case Frontend => FrontendCode
    case Backend => BackendCode
  }

  /** What a stage produces when no provider text reaches the resolver. */
  function StageDefault(id: StageId): Value
  {
    if id == Deployer then DeploymentConfig else DefaultFor(TaskOf(id), None)
  }

  /** `simulate_agent_work`: dispatch on the stage to its `AIService` method. The
      deployment stage never calls a provider. The fallback branch for an unknown agent
      and the `except` branch cannot be reached: the stage table holds only these six,
      and none of the callees raises. */
  function SimulateAgentWork(id: StageId, cfg: Config, codec: JsonCodec, description: string, reply: HttpOutcome): Value
  {
    if id == Deployer then CreateDeploymentConfig(description, Null)
    else RunTask(cfg, codec, TaskOf(id), reply)
  }

  /** Without a provider answer every stage yields its default, and the deployment
      stage always yields the fixed configuration. */
  lemma StageDefaults(id: StageId, cfg: Config, codec: JsonCodec, description: string, reply: HttpOutcome)
    ensures !ProviderAnswered(cfg, reply) ==> SimulateAgentWork(id, cfg, codec, description, reply) == StageDefault(id)
    ensures id == Deployer ==> SimulateAgentWork(id, cfg, codec, description, reply) == DeploymentConfig
  {
  }

  /** No stage default is falsy, so a stage that gets no provider answer always sets
      its column. */
  lemma StageDefaultTruthy(id: StageId)
    ensures Truthy(StageDefault(id))
  {
    if id == Deployer {
      DeploymentConfigShape();
    } else {
      DefaultForShape(TaskOf(id), None);
    }
  }

  /** A failure the worker meets: the `step`-th action raises `message`. */
  datatype Fault = Fault(step: nat, message: string)

  datatype Env = Env(
    delay: nat -> nat,
    cancelAt: nat -> bool,
    replies: StageId -> HttpOutcome,
    score: int,
    fault: Option<Fault>)

  function FaultAt(env: Env, k: nat): Option<string>
  {
    if env.fault.Some? && env.fault.value.step == k then Some(env.fault.value.message) else None
  }

  ghost predicate NoCancel(env: Env)
  {
    forall k :: !env.cancelAt(k)
  }

  /** What each stage produces in this environment: `simulate_agent_work` with the
      answer its provider call gets. */
  function StageWorkIn(cfg: Config, codec: JsonCodec, description: string, env: Env): StageId -> Value
  {
    id => SimulateAgentWork(id, cfg, codec, description, env.replies(id))
  }

  /** `generation_results` after `n` stages, indexed by stage: the first `n` hold their
      stage's artifact and the others `None`. */
  function ResultsAfter(n: nat, work: StageId -> Value): (r: seq<Value>)
    requires n <= StageCount
    ensures |r| == StageCount
  {
    seq(StageCount, j requires 0 <= j < StageCount => if j < n then work(Agents[j].id) else Null)
  }

  /** The dict itself: each stage's result under the stage's key. */
  function ResultsObject(results: seq<Value>): (r: Value)
    requires |results| == StageCount
    ensures r.Obj? && forall j :: 0 <= j < StageCount ==> ResultKey(Agents[j].id) in r.fields && r.fields[ResultKey(Agents[j].id)] == results[j]
  {
    Obj(map["specifications" := results[0], "architecture" := results[1], "design" := results[2],
            "frontend_code" := results[3], "backend_code" := results[4], "deployment" := results[5]])
  }

  /** Storing stage `n`'s artifact extends the results by one stage. */
  lemma StoreResult(n: nat, work: StageId -> Value)
    requires n < StageCount
    ensures ResultsAfter(n, work)[n := work(Agents[n].id)] == ResultsAfter(n + 1, work)
  {
  }

  // ---------------------------------------------------------------------------
  // Keyword classifiers

  const ComplexKeywords: seq<string> := ["ai", "machine learning", "real-time", "blockchain", "microservices", "analytics"]
  const MediumKeywords: seq<string> := ["dashboard", "authentication", "database", "api", "integration"]

  /** `any(keyword in text for keyword in keywords)`. */
  function AnyKeyword(text: string, keywords: seq<string>): (r: bool)
    ensures r <==> exists i :: 0 <= i < |keywords| && Contains(text, keywords[i])
  {
    if keywords == [] then false
    else if Contains(text, keywords[0]) then true
    else
      var r := AnyKeyword(text, keywords[1..]);
      assert forall i :: 1 <= i < |keywords| ==> keywords[i] == keywords[1..][i - 1];
      r
  }

  /** `determine_complexity`: complex keywords take precedence over medium ones. */
  function DetermineComplexity(description: string): (r: string)
    ensures r == "complex" <==> exists i :: 0 <= i < |ComplexKeywords| && Contains(Lower(description), ComplexKeywords[i])
    ensures r == "medium" <==>
      (forall i :: 0 <= i < |ComplexKeywords| ==> !Contains(Lower(description), ComplexKeywords[i])) &&
      (exists i :: 0 <= i < |MediumKeywords| && Contains(Lower(description), MediumKeywords[i]))
    ensures r == "simple" <==>
      (forall i :: 0 <= i < |ComplexKeywords| ==> !Contains(Lower(description), ComplexKeywords[i])) &&
      (forall i :: 0 <= i < |MediumKeywords| ==> !Contains(Lower(description), MediumKeywords[i]))
  {
    var text := Lower(description);
    if AnyKeyword(text, ComplexKeywords) then "complex"
    else if AnyKeyword(text, MediumKeywords) then "medium"
    else "simple"
  }

  /** The substring test also fires inside words: "ai" occurs in "email". */
  lemma EmailIsComplex()
    ensures DetermineComplexity("Email app") == "complex"
  {
    assert Lower("Email app") == "email app";
    assert "ai" <= "email app"[2..];
  }

  /** `feature_map`, in its insertion order. */
  const FeatureMap: seq<(string, string)> := [
    ("user", "User Management"),
    ("auth", "Authentication"),
    ("login", "User Login"),
    ("dashboard", "Dashboard"),
    ("analytics", "Analytics"),
    ("chat", "Chat System"),
    ("notification", "Notifications"),
    ("payment", "Payment Processing"),
    ("search", "Search Functionality"),
    ("upload", "File Upload"),
    ("real-time", "Real-time Updates"),
    ("mobile", "Mobile Responsive"),
    ("api", "REST API"),
    ("database", "Database Integration")]

  const FallbackFeatures: seq<string> := ["User Interface", "Responsive Design", "Modern Styling"]

  const MaxFeatures := 6

  /** The labels of the entries of `table` whose keyword occurs in `text`, in table order. */
  function Matched(text: string, table: seq<(string, string)>): seq<string>
  {
    if table == [] then []
    else
      var last := table[|table| - 1];
      Matched(text, table[..|table| - 1]) + (if Contains(text, last.0) then [last.1] else [])
  }

  /** What `extract_features` returns. */
  function FeaturesFor(description: string): seq<string>
  {
    var m := Matched(Lower(description), FeatureMap);
    var fs := if m == [] then FallbackFeatures else m;
    if |fs| <= MaxFeatures then fs else fs[..MaxFeatures]
  }

  /** `extract_features`: append the label of every matching keyword, fall back to the
      three generic labels, keep the first six. */
  method ExtractFeatures(description: string) returns (features: seq<string>)
    ensures features == FeaturesFor(description)
  {
    features := [];
    var text := Lower(description);
    for i := 0 to |FeatureMap|
      invariant features == Matched(text, FeatureMap[..i])
    {
      assert FeatureMap[..i + 1][..i] == FeatureMap[..i];
      if Contains(text, FeatureMap[i].0) {
        features := features + [FeatureMap[i].1];
      }
    }
    assert FeatureMap[..|FeatureMap|] == FeatureMap;
    if features == [] {
      features := FallbackFeatures;
    }
    if |features| > MaxFeatures {
      features := features[..MaxFeatures];
    }
  }

  predicate Distinct(s: seq<string>)
  {
    forall i, j :: 0 <= i < j < |s| ==> s[i] != s[j]
  }

  /** Every label of `Matched` belongs to a matching entry of the table. */
  lemma {:induction false} MatchedFromTable(text: string, table: seq<(string, string)>, f: string)
    requires f in Matched(text, table)
    ensures exists k :: 0 <= k < |table| && table[k].1 == f && Contains(text, table[k].0)
    decreases |table|
  {
    var init := table[..|table| - 1];
    var last := table[|table| - 1];
    if f in Matched(text, init) {
      MatchedFromTable(text, init, f);
      var k :| 0 <= k < |init| && init[k].1 == f && Contains(text, init[k].0);
      assert table[k] == init[k];
    } else {
      assert table[|table| - 1].1 == f && Contains(text, last.0);
    }
  }

  /** The labels of the feature table are pairwise different, and none is a generic one. */
  lemma FeatureLabelsDistinct()
    ensures forall i, j :: 0 <= i < j < |FeatureMap| ==> FeatureMap[i].1 != FeatureMap[j].1
    ensures forall i :: 0 <= i < |FeatureMap| ==> FeatureMap[i].1 !in FallbackFeatures
  {
  }

  /** Labels that are distinct in the table stay distinct in `Matched`. */
  lemma {:induction false} MatchedDistinct(text: string, table: seq<(string, string)>)
    requires forall i, j :: 0 <= i < j < |table| ==> table[i].1 != table[j].1
    ensures Distinct(Matched(text, table))
    decreases |table|
  {
    if table != [] {
      var init := table[..|table| - 1];
      var last := table[|table| - 1];
      MatchedDistinct(text, init);
      if Contains(text, last.0) {
        forall f | f in Matched(text, init) ensures f != last.1 {
          MatchedFromTable(text, init, f);
          var k :| 0 <= k < |init| && init[k].1 == f && Contains(text, init[k].0);
          assert table[k] == init[k];
        }
        AppendDistinct(Matched(text, init), last.1);
      }
    }
  }

  lemma AppendDistinct(s: seq<string>, x: string)
    requires Distinct(s) && x !in s
    ensures Distinct(s + [x])
  {
  }

  /** `Matched` holds entry `k`'s label at an index no greater than `k`. */
  lemma {:induction false} MatchedIncludes(text: string, table: seq<(string, string)>, k: nat)
    requires k < |table| && Contains(text, table[k].0)
    ensures exists j :: 0 <= j <= k && j < |Matched(text, table)| && Matched(text, table)[j] == table[k].1
    decreases |table|
  {
    var init := table[..|table| - 1];
    MatchedLength(text, init);
    if k == |table| - 1 {
      var j := |Matched(text, init)|;
      assert Matched(text, table)[j] == table[k].1;
    } else {
      assert init[k] == table[k];
      MatchedIncludes(text, init, k);
      var j :| 0 <= j <= k && j < |Matched(text, init)| && Matched(text, init)[j] == init[k].1;
      assert Matched(text, table)[j] == Matched(text, init)[j];
    }
  }

  lemma {:induction false} MatchedLength(text: string, table: seq<(string, string)>)
    ensures |Matched(text, table)| <= |table|
    decreases |table|
  {
    if table != [] {
      MatchedLength(text, table[..|table| - 1]);
    }
  }

  /** The result has between one and six labels, none twice. */
  lemma FeaturesBoundedDistinct(description: string)
    ensures 0 < |FeaturesFor(description)| <= MaxFeatures
    ensures Distinct(FeaturesFor(description))
  {
    var m := Matched(Lower(description), FeatureMap);
    FeatureLabelsDistinct();
    MatchedDistinct(Lower(description), FeatureMap);
    if |m| > MaxFeatures {
      assert forall i :: 0 <= i < MaxFeatures ==> m[..MaxFeatures][i] == m[i];
    }
  }

  /** The generic labels come exactly when no keyword of the table occurs. */
  lemma FallbackIffNoKeyword(description: string)
    ensures FeaturesFor(description) == FallbackFeatures <==>
      forall k :: 0 <= k < |FeatureMap| ==> !Contains(Lower(description), FeatureMap[k].0)
  {
    var text := Lower(description);
    var m := Matched(text, FeatureMap);
    if m != [] {
      FeatureLabelsDistinct();
      MatchedFromTable(text, FeatureMap, m[0]);
      var k :| 0 <= k < |FeatureMap| && FeatureMap[k].1 == m[0] && Contains(text, FeatureMap[k].0);
      assert FeaturesFor(description)[0] == m[0];
    } else {
      forall k | 0 <= k < |FeatureMap| ensures !Contains(text, FeatureMap[k].0) {
        if Contains(text, FeatureMap[k].0) {
          MatchedIncludes(text, FeatureMap, k);
        }
      }
    }
  }

  /** Otherwise every label comes from a keyword found in the description. */
  lemma FeaturesFromKeywords(description: string, f: string)
    requires FeaturesFor(description) != FallbackFeatures && f in FeaturesFor(description)
    ensures exists k :: 0 <= k < |FeatureMap| && FeatureMap[k].1 == f && Contains(Lower(description), FeatureMap[k].0)
  {
    var m := Matched(Lower(description), FeatureMap);
    assert m != [];
    if |m| > MaxFeatures {
      assert f in m;
    }
    MatchedFromTable(Lower(description), FeatureMap, f);
  }

  /** A keyword among the first six of the table is never cut by the limit of six. */
  lemma EarlyKeywordIncluded(description: string, k: nat)
    requires k < MaxFeatures && Contains(Lower(description), FeatureMap[k].0)
    ensures FeatureMap[k].1 in FeaturesFor(description)
  {
    var text := Lower(description);
    MatchedIncludes(text, FeatureMap, k);
    var j :| 0 <= j <= k && j < |Matched(text, FeatureMap)| && Matched(text, FeatureMap)[j] == FeatureMap[k].1;
    var m := Matched(text, FeatureMap);
    if |m| > MaxFeatures {
      assert m[..MaxFeatures][j] == m[j];
    }
  }

  // ---------------------------------------------------------------------------
  // Request handlers

  /** The fields of the start request body; a missing key is `None`. */
  datatype StartRequest = StartRequest(projectId: Option<int>, description: Option<string>, requirements: Value)

  /** The start handler's commit: the record enters `generating` with an estimate five
      minutes ahead. `completed_at` is left as it was. */
  method StartOn(p: Project, now: int)
    modifies p`status, p`startedAt, p`progress, p`currentAgent, p`estimatedCompletion, p`errorMessage
    ensures p.status == Generating && p.startedAt == Some(now) && p.progress == 0
    ensures p.currentAgent == Some("Requirements Analyst")
    ensures p.estimatedCompletion == Some(now + 5 * 60 * 1000) && p.errorMessage == None
    ensures p.Snapshot() == old(p.Snapshot()).(status := Generating, startedAt := Some(now), progress := 0,
      currentAgent := Some("Requirements Analyst"), estimatedCompletion := Some(now + 300000), errorMessage := None)
  {
    p.status := Generating;
    p.startedAt := Some(now);
    p.progress := 0;
    p.currentAgent := Some(Agents[0].name);
    p.estimatedCompletion := Some(now + 5 * 60 * 1000);
    p.errorMessage := None;
  }

  /** `start_generation`: 400 without a project id or description, 404 for an unknown
      project, 409 while a run is in progress, otherwise 202 after the start commit (the
      worker itself is `RunGenerationProcess`). A refused request changes nothing. */
  method StartGeneration(store: ProjectStore, req: StartRequest, now: int) returns (code: int)
    modifies if req.projectId.Some? then store.Row(req.projectId.value) else {}
    ensures code == 400 <==> req.projectId.None? || req.description.None?
    ensures code == 404 <==> req.projectId.Some? && req.description.Some? && req.projectId.value !in store.projects
    ensures code == 409 <==>
      (req.projectId.Some? && req.description.Some? && req.projectId.value in store.projects &&
       old(store.projects[req.projectId.value].status) == Generating)
    ensures code in {202, 400, 404, 409}
    ensures code != 202 && req.projectId.Some? && req.projectId.value in store.projects ==>
      unchanged(store.projects[req.projectId.value])
    ensures code == 202 ==>
      var p := store.projects[req.projectId.value];
      p.status == Generating && p.startedAt == Some(now) && p.progress == 0 &&
      p.currentAgent == Some("Requirements Analyst") && p.estimatedCompletion == Some(now + 300000) &&
      p.errorMessage == None && p.completedAt == old(p.completedAt) && p.id == old(p.id) &&
      p.Snapshot() == old(p.Snapshot()).(status := Generating, startedAt := Some(now), progress := 0,
        currentAgent := Some("Requirements Analyst"), estimatedCompletion := Some(now + 300000), errorMessage := None)
  {
    if req.projectId.None? || req.description.None? {
      return 400;
    }
    var id := req.projectId.value;
    if id !in store.projects {
      return 404;
    }
    var p := store.projects[id];
    if p.status == Generating {
      return 409;
    }
    StartOn(p, now);
    code := 202;
  }

  /** The cancel handler on a found record: 400 unless a run is in progress, otherwise
      the record becomes `cancelled`, finished now, with no current agent. */
  method Cancel(p: Project, now: int) returns (code: int)
    modifies p`status, p`completedAt, p`currentAgent
    ensures code == (if old(p.status) == Generating then 200 else 400)
    ensures code == 200 ==> p.status == Cancelled && p.completedAt == Some(now) && p.currentAgent == None
    ensures code == 200 ==> p.Snapshot() == old(p.Snapshot()).(status := Cancelled, completedAt := Some(now), currentAgent := None)
    ensures code == 400 ==> unchanged(p)
  {
    if p.status != Generating {
      return 400;
    }
    p.status := Cancelled;
    p.completedAt := Some(now);
    p.currentAgent := None;
    code := 200;
  }

  /** `cancel_generation`: 404 for an unknown project, otherwise `Cancel`. */
  method CancelGeneration(store: ProjectStore, id: int, now: int) returns (code: int)
    modifies store.Row(id)
    ensures code == 404 <==> id !in store.projects
    ensures code == 400 <==> id in store.projects && old(store.projects[id].status) != Generating
    ensures code in {200, 400, 404}
    ensures code == 200 ==>
      var p := store.projects[id];
      p.status == Cancelled && p.completedAt == Some(now) && p.currentAgent == None &&
      p.progress == old(p.progress) && p.errorMessage == old(p.errorMessage) && p.id == old(p.id) &&
      p.Snapshot() == old(p.Snapshot()).(status := Cancelled, completedAt := Some(now), currentAgent := None)
    ensures code != 200 && id in store.projects ==> unchanged(store.projects[id])
  {
    if id !in store.projects {
      return 404;
    }
    code := Cancel(store.projects[id], now);
  }

  // ---------------------------------------------------------------------------
  // The worker

  /** The worker's `except` handler. */
  method Fail(p: Project, message: string, now: int)
    modifies p`status, p`completedAt, p`errorMessage, p`currentAgent
    ensures p.status == "failed" && p.completedAt == Some(now) && p.errorMessage == Some(message) && p.currentAgent == None
  {
    p.status := ProjectModel.Failed;
    p.completedAt := Some(now);
    p.errorMessage := Some(message);
    p.currentAgent := None;
  }

  /** What happens around the worker's `k`-th action: the clock advances, a cancel
      request may be handled first, and the action may raise, in which case the
      handler has run. */
  method Step(p: Project, env: Env, k: nat, now: int) returns (k': nat, now': int, crashed: Option<string>)
    modifies p`status, p`completedAt, p`currentAgent, p`errorMessage
    ensures k' == k + 1 && now' == now + env.delay(k)
    ensures crashed == FaultAt(env, k)
    ensures crashed.Some? ==>
      p.status == "failed" && p.completedAt == Some(now') && p.errorMessage == crashed && p.currentAgent == None
    ensures crashed.None? && env.cancelAt(k) && old(p.status) == Generating ==>
      p.status == Cancelled && p.completedAt == Some(now') && p.currentAgent == None
    ensures crashed.None? && !(env.cancelAt(k) && old(p.status) == Generating) ==>
      p.status == old(p.status) && p.completedAt == old(p.completedAt) && p.currentAgent == old(p.currentAgent)
    ensures crashed.None? ==> p.errorMessage == old(p.errorMessage)
  {
    k' := k + 1;
    now' := now + env.delay(k);
    if env.cancelAt(k) {
      var _ := Cancel(p, now');
    }
    crashed := FaultAt(env, k);
    if crashed.Some? {
      Fail(p, crashed.value, now');
    }
  }

  /** How the worker ends. */
  datatype Exit = Finalised | ObservedCancel | Crashed(message: string)

  ghost predicate Nondecreasing(s: seq<int>)
  {
    forall i, j :: 0 <= i <= j < |s| ==> s[i] <= s[j]
  }

  ghost predicate Percentages(s: seq<int>)
  {
    forall i :: 0 <= i < |s| ==> 0 <= s[i] <= 100
  }

  function Last(s: seq<int>, otherwise: int): int
  {
    if s == [] then otherwise else s[|s| - 1]
  }

  lemma AppendWrite(s: seq<int>, x: int)
    requires Nondecreasing(s) && Percentages(s) && Last(s, 0) <= x && 0 <= x <= 100
    ensures Nondecreasing(s + [x]) && Percentages(s + [x]) && Last(s + [x], 0) == x
  {
  }

  /** The state the worker leaves when it stops early. */
  ghost predicate Stopped(p: Project, env: Env, e: Exit)
    reads p`status, p`errorMessage, p`currentAgent, p`completedAt
  {
    match e
    case Finalised => false
    case ObservedCancel => p.status == Cancelled
    case Crashed(m) =>
      env.fault.Some? && m == env.fault.value.message &&
      p.status == Failed && p.errorMessage == Some(m) && p.currentAgent == None && p.completedAt.Some?
  }

  /** No cancel request arrives and nothing raises. */
  ghost predicate Quiet(env: Env)
  {
    env.fault.None? && NoCancel(env)
  }

  /** The poll loop of stage `i`: while less than the stage's duration has passed since
      `now`, check for cancellation, write the in-stage progress and sleep two seconds. */
  method PollStage(p: Project, i: nat, env: Env, k: nat, now: int, ghost writes: seq<int>, ghost initial: int)
    returns (stop: Option<Exit>, k': nat, now': int, ghost writes': seq<int>)
    requires i < StageCount
    requires Nondecreasing(writes) && Percentages(writes) && Last(writes, 0) <= BoundaryProgress(i)
    requires p.progress == Last(writes, initial)
    modifies p`status, p`completedAt, p`currentAgent, p`errorMessage, p`progress
    ensures Nondecreasing(writes') && Percentages(writes') && p.progress == Last(writes', initial)
    ensures stop.Some? ==> Stopped(p, env, stop.value)
    ensures stop.None? ==>
      now' >= now + Agents[i].duration * 1000 && Last(writes', 0) <= BoundaryProgress(i + 1) &&
      p.errorMessage == old(p.errorMessage)
    ensures Quiet(env) && old(p.status) != Cancelled ==> stop.None? && p.status == old(p.status)
  {
    var crashed: Option<string>;
    k', now', writes', stop := k, now, writes, None;
    while now' - now < Agents[i].duration * 1000
      invariant now' >= now
      invariant Nondecreasing(writes') && Percentages(writes') && p.progress == Last(writes', initial)
      invariant Last(writes', 0) <= InStageProgress(i, now' - now)
      invariant p.errorMessage == old(p.errorMessage)
      invariant Quiet(env) ==> p.status == old(p.status)
      decreases Agents[i].duration * 1000 - (now' - now)
    {
      ghost var before := now' - now;
      // the status read
      k', now', crashed := Step(p, env, k', now');
      if crashed.Some? {
        return Some(Crashed(crashed.value)), k', now', writes';
      }
      if p.status == Cancelled {
        return Some(ObservedCancel), k', now', writes';
      }
      var agentElapsed := now' - now;
      // the progress commit
      k', now', crashed := Step(p, env, k', now');
      if crashed.Some? {
        return Some(Crashed(crashed.value)), k', now', writes';
      }
      InStageMonotone(i, before, agentElapsed);
      p.progress := InStageProgress(i, agentElapsed);
      AppendWrite(writes', p.progress);
      writes' := writes' + [p.progress];
      now' := now' + 2000;
      InStageMonotone(i, agentElapsed, now' - now);
    }
  }

  /** The stage boundary: the status read, then the commit of the stage's agent and
      boundary progress. */
  method EnterStage(p: Project, i: nat, env: Env, k: nat, now: int, ghost writes: seq<int>, ghost initial: int)
    returns (stop: Option<Exit>, k': nat, now': int, ghost writes': seq<int>)
    requires i < StageCount
    requires Nondecreasing(writes) && Percentages(writes) && Last(writes, 0) <= BoundaryProgress(i)
    requires p.progress == Last(writes, initial)
    modifies p`status, p`completedAt, p`currentAgent, p`errorMessage, p`progress
    ensures Nondecreasing(writes') && Percentages(writes') && p.progress == Last(writes', initial)
    ensures stop.Some? ==> Stopped(p, env, stop.value)
    ensures stop.None? ==>
      now' >= now && Last(writes', 0) == BoundaryProgress(i) && p.currentAgent == Some(Agents[i].name) &&
      p.errorMessage == old(p.errorMessage)
    ensures Quiet(env) && old(p.status) != Cancelled ==> stop.None? && p.status == old(p.status)
  {
    var crashed: Option<string>;
    writes' := writes;
    k', now', crashed := Step(p, env, k, now);
    if crashed.Some? {
      return Some(Crashed(crashed.value)), k', now', writes';
    }
    if p.status == Cancelled {
      return Some(ObservedCancel), k', now', writes';
    }
    k', now', crashed := Step(p, env, k', now');
    if crashed.Some? {
      return Some(Crashed(crashed.value)), k', now', writes';
    }
    p.currentAgent := Some(Agents[i].name);
    p.progress := BoundaryProgress(i);
    AppendWrite(writes', p.progress);
    writes' := writes' + [p.progress];
    stop := None;
  }

  /** The stage's work (`simulate_agent_work` in `RunGenerationProcess`), then the
      setter of the stage's column (the first three stages have one). */
  method StageWork(p: Project, i: nat, work: StageId -> Value, codec: JsonCodec, env: Env, k: nat, now: int)
    returns (stop: Option<Exit>, k': nat, now': int, result: Value)
    requires i < StageCount
    modifies p`status, p`completedAt, p`currentAgent, p`errorMessage, p`specifications, p`architecture, p`design
    ensures stop.Some? ==> Stopped(p, env, stop.value)
    ensures stop.None? ==>
      result == work(Agents[i].id) && now' >= now && p.errorMessage == old(p.errorMessage)
    ensures stop.None? && i == 0 ==> p.specifications == Stored(codec, result)
    ensures stop.None? && i == 1 ==> p.architecture == Stored(codec, result)
    ensures stop.None? && i == 2 ==> p.design == Stored(codec, result)
    ensures i != 0 ==> p.specifications == old(p.specifications)
    ensures i != 1 ==> p.architecture == old(p.architecture)
    ensures i != 2 ==> p.design == old(p.design)
    ensures Quiet(env) ==> stop.None? && p.status == old(p.status)
  {
    var crashed: Option<string>;
    result := Null;
    k', now', crashed := Step(p, env, k, now);
    if crashed.Some? {
      return Some(Crashed(crashed.value)), k', now', result;
    }
    result := work(Agents[i].id);
    if i == 0 {
      p.SetSpecifications(codec, result);
    } else if i == 1 {
      p.SetArchitecture(codec, result);
    } else if i == 2 {
      p.SetDesign(codec, result);
    }
    stop := None;
  }


  const TechStack: seq<string> := ["React", "Node.js", "PostgreSQL", "Tailwind CSS"]

  /** The record a completed run leaves, with the artifacts in `results`. */
  ghost predicate CompletedRecord(p: Project, description: string, codec: JsonCodec, score: int, results: seq<Value>)
    requires |results| == StageCount
    reads p`status, p`progress, p`currentAgent, p`completedAt, p`generatedCode,
      p`framework, p`complexity, p`buildTime, p`performanceScore, p`techStack, p`features
  {
    CompletedStatus(p, codec, results) && CompletedMetadata(p, description, codec, score)
  }

  /** The run columns of a completed record. */
  ghost predicate CompletedStatus(p: Project, codec: JsonCodec, results: seq<Value>)
    requires |results| == StageCount
    reads p`status, p`progress, p`currentAgent, p`completedAt, p`generatedCode
  {
    p.status == Completed && p.progress == 100 && p.currentAgent == None && p.completedAt.Some? &&
    p.generatedCode == Stored(codec, ResultsObject(results))
  }

  /** The project metadata a completed record carries. */
  ghost predicate CompletedMetadata(p: Project, description: string, codec: JsonCodec, score: int)
    reads p`framework, p`complexity, p`buildTime, p`performanceScore, p`techStack, p`features
  {
    p.framework == Some("React") && p.complexity == Some(DetermineComplexity(description)) &&
    p.buildTime == Some("4m 25s") && p.performanceScore == Some(score) &&
    p.techStack == Stored(codec, StrList(TechStack)) &&
    p.features == Stored(codec, StrList(FeaturesFor(description)))
  }

  /** The final commit of a run that was not cancelled. */
  method CommitCompletion(p: Project, description: string, codec: JsonCodec, score: int, results: seq<Value>, now: int)
    requires |results| == StageCount
    modifies p`status, p`completedAt, p`currentAgent, p`progress, p`generatedCode,
      p`framework, p`complexity, p`buildTime, p`performanceScore, p`techStack, p`features
    ensures CompletedRecord(p, description, codec, score, results) && p.completedAt == Some(now)
  {
    CommitStatus(p, codec, results, now);
    CommitMetadata(p, description, codec, score);
  }

  method CommitStatus(p: Project, codec: JsonCodec, results: seq<Value>, now: int)
    requires |results| == StageCount
    modifies p`status, p`completedAt, p`currentAgent, p`progress, p`generatedCode
    ensures CompletedStatus(p, codec, results) && p.completedAt == Some(now)
  {
    p.status := Completed;
    p.completedAt := Some(now);
    p.progress := 100;
    p.currentAgent := None;
    p.SetGeneratedCode(codec, ResultsObject(results));
  }

  method CommitMetadata(p: Project, description: string, codec: JsonCodec, score: int)
    modifies p`framework, p`complexity, p`buildTime, p`performanceScore, p`techStack, p`features
    ensures CompletedMetadata(p, description, codec, score)
  {
    p.framework := Some("React");
    p.complexity := Some(DetermineComplexity(description));
    BuildTimeOfPipeline();
    p.buildTime := Some(BuildTime(TotalDuration));
    p.performanceScore := Some(score);
    p.SetTechStack(codec, StrList(TechStack));
    var features := ExtractFeatures(description);
    p.SetFeatures(codec, StrList(features));
  }

  /** The end of the worker: the status read, then, unless the record was cancelled,
      the final commit. */
  method Finalise(p: Project, description: string, codec: JsonCodec, env: Env, results: seq<Value>,
                  k: nat, now: int, ghost writes: seq<int>, ghost initial: int)
    returns (exit: Exit, ghost writes': seq<int>)
    requires |results| == StageCount
    requires Nondecreasing(writes) && Percentages(writes) && p.progress == Last(writes, initial)
    modifies p`status, p`completedAt, p`currentAgent, p`errorMessage, p`progress, p`generatedCode,
      p`framework, p`complexity, p`buildTime, p`performanceScore, p`techStack, p`features
    ensures Nondecreasing(writes') && Percentages(writes') && p.progress == Last(writes', initial)
    ensures exit != Finalised ==> Stopped(p, env, exit)
    ensures exit == Finalised ==>
      CompletedRecord(p, description, codec, env.score, results) &&
      p.completedAt.value >= now && p.errorMessage == old(p.errorMessage)
    ensures Quiet(env) && old(p.status) != Cancelled ==> exit == Finalised
  {
    var crashed: Option<string>;
    var k', now' := k, now;
    writes' := writes;
    // the status read before finalising
    k', now', crashed := Step(p, env, k', now');
    if crashed.Some? {
      return Crashed(crashed.value), writes';
    }
    if p.status == Cancelled {
      return ObservedCancel, writes';
    }
    // the final commit
    k', now', crashed := Step(p, env, k', now');
    if crashed.Some? {
      return Crashed(crashed.value), writes';
    }
    AppendWrite(writes', 100);
    writes' := writes' + [100];
    CommitCompletion(p, description, codec, env.score, results, now');
    exit := Finalised;
  }

  /** The columns the first `n` stages have set from their `results`. */
  ghost predicate StageColumns(p: Project, codec: JsonCodec, results: seq<Value>, n: nat)
    requires n <= |results| == StageCount
    reads p`specifications, p`architecture, p`design
  {
    (n > 0 ==> p.specifications == Stored(codec, results[0])) &&
    (n > 1 ==> p.architecture == Stored(codec, results[1])) &&
    (n > 2 ==> p.design == Stored(codec, results[2]))
  }

  /** The stage loop of `run_generation_process`: the six stages in order, collecting
      `generation_results`. */
  method RunStages(p: Project, work: StageId -> Value, codec: JsonCodec, env: Env, start: int, ghost initial: int)
    returns (stop: Option<Exit>, k: nat, now: int, results: seq<Value>, ghost writes: seq<int>)
    requires p.progress == initial
    modifies p`status, p`completedAt, p`currentAgent, p`errorMessage, p`progress,
      p`specifications, p`architecture, p`design
    ensures Nondecreasing(writes) && Percentages(writes) && p.progress == Last(writes, initial)
    ensures stop.Some? ==> Stopped(p, env, stop.value)
    ensures stop.None? ==>
      results == ResultsAfter(StageCount, work) &&
      StageColumns(p, codec, results, StageCount) &&
      now >= start + TotalMs && p.errorMessage == old(p.errorMessage)
    ensures Quiet(env) && old(p.status) != Cancelled ==> stop.None? && p.status == old(p.status)
  {
    k, now, writes, stop := 0, start, [], None;
    results := [Null, Null, Null, Null, Null, Null];
    assert results == ResultsAfter(0, work);
    ghost var elapsed: nat := 0;
    for i := 0 to StageCount
      invariant elapsed == ElapsedBefore(i)
      invariant results == ResultsAfter(i, work)
      invariant now >= start + elapsed * 1000
      invariant Nondecreasing(writes) && Percentages(writes) && Last(writes, 0) <= BoundaryProgress(i)
      invariant p.progress == Last(writes, initial)
      invariant p.errorMessage == old(p.errorMessage)
      invariant Quiet(env) && old(p.status) != Cancelled ==> p.status == old(p.status)
      invariant StageColumns(p, codec, results, i)
      invariant stop == None
    {
      var result: Value;
      stop, k, now, writes := EnterStage(p, i, env, k, now, writes, initial);
      if stop.Some? {
        return;
      }
      stop, k, now, result := StageWork(p, i, work, codec, env, k, now);
      if stop.Some? {
        return;
      }
      stop, k, now, writes := PollStage(p, i, env, k, now, writes, initial);
      if stop.Some? {
        return;
      }
      StoreResult(i, work);
      results := results[i := result];
      elapsed := elapsed + Agents[i].duration;
    }
    ElapsedValues();
  }

  /** `run_generation_process` with the corrected in-stage progress: the stages, then
      finalisation. `work` is what each stage produces; the worker the start handler
      launches runs with `StageWorkIn(cfg, codec, description, env)`, which is
      `simulate_agent_work` (see `Generate`). `writes` records every progress value the
      worker stores and `results` is its `generation_results`. */
  method RunGenerationProcess(p: Project, description: string, work: StageId -> Value, codec: JsonCodec, env: Env, start: int)
    returns (exit: Exit, ghost writes: seq<int>, ghost results: seq<Value>)
    requires 85 <= env.score <= 98
    modifies p`status, p`completedAt, p`currentAgent, p`errorMessage, p`progress,
      p`specifications, p`architecture, p`design, p`generatedCode,
      p`framework, p`complexity, p`buildTime, p`performanceScore, p`techStack, p`features
    ensures Nondecreasing(writes) && Percentages(writes)
    ensures p.progress == Last(writes, old(p.progress))
    ensures exit != Finalised ==> Stopped(p, env, exit)
    ensures exit == Finalised ==> results == ResultsAfter(StageCount, work)
    ensures exit == Finalised ==>
      CompletedRecord(p, description, codec, env.score, results) &&
      85 <= p.performanceScore.value <= 98 &&
      p.completedAt.value >= start + TotalMs && p.errorMessage == old(p.errorMessage)
    ensures Quiet(env) && old(p.status) != Cancelled ==> exit == Finalised
  {
    var stop: Option<Exit>;
    var k: nat;
    var now: int;
    var stageResults: seq<Value>;
    ghost var initial := p.progress;
    stop, k, now, stageResults, writes := RunStages(p, work, codec, env, start, initial);
    results := stageResults;
    if stop.Some? {
      return stop.value, writes, results;
    }
    exit, writes := Finalise(p, description, codec, env, stageResults, k, now, writes, initial);
  }

  /** A start request followed, when accepted, by the worker it launches; the worker
      begins at the start commit's timestamp. */
  method Generate(store: ProjectStore, req: StartRequest, now: int, cfg: Config, codec: JsonCodec, env: Env)
    returns (code: int, exit: Option<Exit>)
    requires 85 <= env.score <= 98
    modifies if req.projectId.Some? then store.Row(req.projectId.value) else {}
    ensures code != 202 <==> exit.None?
    ensures code == 202 ==> req.projectId.Some? && req.description.Some? && req.projectId.value in store.projects
    ensures code == 202 && Quiet(env) ==> exit == Some(Finalised) && store.projects[req.projectId.value].status == Completed
    ensures code == 202 && exit != Some(Finalised) ==> Stopped(store.projects[req.projectId.value], env, exit.value)
    ensures code == 202 && exit == Some(Finalised) ==>
      CompletedRecord(store.projects[req.projectId.value], req.description.value, codec, env.score,
        ResultsAfter(StageCount, StageWorkIn(cfg, codec, req.description.value, env))) &&
      store.projects[req.projectId.value].performanceScore.Some? &&
      85 <= store.projects[req.projectId.value].performanceScore.value <= 98
  {
    code := StartGeneration(store, req, now);
    if code != 202 {
      return code, None;
    }
    var p := store.projects[req.projectId.value];
    var e: Exit;
    ghost var writes: seq<int>;
    ghost var results: seq<Value>;
    e, writes, results := RunGenerationProcess(p, req.description.value, StageWorkIn(cfg, codec, req.description.value, env), codec, env, now);
    exit := Some(e);
  }
}

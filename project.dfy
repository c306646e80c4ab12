/**
 * The `Project` record of the backend (one generation job and its artifacts) and the
 * table that holds the records by id.
 *
 * Timestamps are integer milliseconds of one clock. The JSON columns hold the text
 * `json.dumps` produced, through the abstract codec of module `Json`. `to_dict`
 * renders a timestamp as its number where the backend writes its ISO-8601 text.
 */
module ProjectModel {
  import opened Wrappers
  import opened Json

  const Draft := "draft"
  const Generating := "generating"
  const Completed := "completed"
  const Failed := "failed"
  const Cancelled := "cancelled"

  /** The statuses a run ends in. */
  predicate IsTerminal(status: string)
  {
    status == Completed || status == Failed || status == Cancelled
  }

  class Project {
    var id: int
    var name: string
    var description: string
    var status: string
    // generation metadata
    var startedAt: Option<int>
    var completedAt: Option<int>
    var currentAgent: Option<string>
    var progress: int
    var estimatedCompletion: Option<int>
    var errorMessage: Option<string>
    // generated content, as JSON text
    var generatedCode: Option<string>
    var specifications: Option<string>
    var architecture: Option<string>
    var design: Option<string>
    // project metadata
    var framework: Option<string>
    var complexity: Option<string>
    var buildTime: Option<string>
    var performanceScore: Option<int>
    var techStack: Option<string>
    var features: Option<string>
    var deployUrl: Option<string>
    var createdAt: int
    var updatedAt: int

    /** A fresh row as the table stores it on insert: the given columns, the column
        defaults (progress 0) and every other column null. */
    constructor (id: int, name: string, description: string, status: string,
                 framework: Option<string>, complexity: Option<string>, now: int)
      requires name != "" && description != ""
      ensures this.id == id && this.name == name && this.description == description
      ensures this.status == status && this.framework == framework && this.complexity == complexity
      ensures startedAt == None && completedAt == None && currentAgent == None && progress == 0
      ensures estimatedCompletion == None && errorMessage == None
      ensures generatedCode == None && specifications == None && architecture == None && design == None
      ensures buildTime == None && performanceScore == None && techStack == None && features == None
      ensures deployUrl == None && createdAt == now && updatedAt == now
    {
      this.id := id;
      this.name := name;
      this.description := description;
      this.status := status;
      startedAt, completedAt, currentAgent := None, None, None;
      progress := 0;
      estimatedCompletion, errorMessage := None, None;
      generatedCode, specifications, architecture, design := None, None, None, None;
      this.framework := framework;
      this.complexity := complexity;
      buildTime, performanceScore, techStack, features, deployUrl := None, None, None, None, None;
      createdAt, updatedAt := now, now;
    }

    /** `Project.__init__`: `ValueError` when the name or the description is empty. */
    static method Create(id: int, name: string, description: string, status: string,
                         framework: Option<string>, complexity: Option<string>, now: int)
      returns (r: Result<Project, string>)
      ensures r.Failure? <==> name == "" || description == ""
      ensures r.Failure? ==> r.error == "Name and description are required"
      ensures r.Success? ==> fresh(r.value) && r.value.id == id && r.value.status == status
      ensures r.Success? ==> r.value.name == name && r.value.description == description
      ensures r.Success? ==> r.value.framework == framework && r.value.complexity == complexity
      ensures r.Success? ==> r.value.progress == 0 && r.value.startedAt == None && r.value.completedAt == None
      ensures r.Success? ==> r.value.specifications == None && r.value.architecture == None &&
                             r.value.generatedCode == None && r.value.design == None
      ensures r.Success? ==> r.value.techStack == None && r.value.features == None
      ensures r.Success? ==> r.value.createdAt == now && r.value.updatedAt == now
      ensures r.Success? ==> r.value.Snapshot() == FreshColumns(name, description, status, framework, complexity, now)
    {
      if name == "" || description == "" {
        return Failure("Name and description are required");
      }
      var p := new Project(id, name, description, status, framework, complexity, now);
      return Success(p);
    }

    method SetGeneratedCode(codec: JsonCodec, data: Value)
      modifies this`generatedCode
      ensures generatedCode == Stored(codec, data)
    {
      generatedCode := if Truthy(data) then Some(codec.dumps(data)) else None;
    }

    method SetSpecifications(codec: JsonCodec, data: Value)
      modifies this`specifications
      ensures specifications == Stored(codec, data)
    {
      specifications := if Truthy(data) then Some(codec.dumps(data)) else None;
    }

    method SetArchitecture(codec: JsonCodec, data: Value)
      modifies this`architecture
      ensures architecture == Stored(codec, data)
    {
      architecture := if Truthy(data) then Some(codec.dumps(data)) else None;
    }

    /** Called by the routes but not defined by the class shown; modelled with the rule
        of the three setters above. */
    method SetDesign(codec: JsonCodec, data: Value)
      modifies this`design
      ensures design == Stored(codec, data)
    {
      design := if Truthy(data) then Some(codec.dumps(data)) else None;
    }

    /** As `SetDesign`. */
    method SetTechStack(codec: JsonCodec, data: Value)
      modifies this`techStack
      ensures techStack == Stored(codec, data)
    {
      techStack := if Truthy(data) then Some(codec.dumps(data)) else None;
    }

    /** As `SetDesign`. */
    method SetFeatures(codec: JsonCodec, data: Value)
      modifies this`features
      ensures features == Stored(codec, data)
    {
      features := if Truthy(data) then Some(codec.dumps(data)) else None;
    }

    /** Every column but the id, as one value. */
    function Snapshot(): Columns
      reads this
    {
      var identity := IdentityPart();
      var run := RunPart();
      var content := ContentPart();
      var metadata := MetadataPart();
      Columns(identity.0, identity.1, run.0, run.1, run.2, run.3, run.4, run.5, run.6,
        content.0, content.1, content.2, content.3, metadata.0, metadata.1, metadata.2, metadata.3,
        content.4, content.5, metadata.4, identity.2, identity.3)
    }

    // The columns in four groups, each read and written on its own.

    function IdentityPart(): (string, string, int, int)
      reads this`name, this`description, this`createdAt, this`updatedAt
    {
      (name, description, createdAt, updatedAt)
    }

    function RunPart(): (string, Option<int>, Option<int>, Option<string>, int, Option<int>, Option<string>)
      reads this`status, this`startedAt, this`completedAt, this`currentAgent, this`progress,
        this`estimatedCompletion, this`errorMessage
    {
      (status, startedAt, completedAt, currentAgent, progress, estimatedCompletion, errorMessage)
    }

    function ContentPart(): (Option<string>, Option<string>, Option<string>, Option<string>, Option<string>, Option<string>)
      reads this`generatedCode, this`specifications, this`architecture, this`design, this`techStack, this`features
    {
      (generatedCode, specifications, architecture, design, techStack, features)
    }

    function MetadataPart(): (Option<string>, Option<string>, Option<string>, Option<int>, Option<string>)
      reads this`framework, this`complexity, this`buildTime, this`performanceScore, this`deployUrl
    {
      (framework, complexity, buildTime, performanceScore, deployUrl)
    }

    /** Writes every column but the id. */
    method Restore(c: Columns)
      modifies this
      ensures Snapshot() == c && id == old(id)
    {
      RestoreA(c);
      RestoreB(c);
    }

    method RestoreA(c: Columns)
      modifies this`name, this`description, this`createdAt, this`updatedAt, this`status, this`startedAt,
        this`completedAt, this`currentAgent, this`progress, this`estimatedCompletion, this`errorMessage
      ensures IdentityPart() == (c.name, c.description, c.createdAt, c.updatedAt)
      ensures RunPart() ==
        (c.status, c.startedAt, c.completedAt, c.currentAgent, c.progress, c.estimatedCompletion, c.errorMessage)
    {
      RestoreIdentity(c);
      RestoreRun(c);
    }

    method RestoreB(c: Columns)
      modifies this`generatedCode, this`specifications, this`architecture, this`design, this`techStack,
        this`features, this`framework, this`complexity, this`buildTime, this`performanceScore, this`deployUrl
      ensures ContentPart() ==
        (c.generatedCode, c.specifications, c.architecture, c.design, c.techStack, c.features)
      ensures MetadataPart() == (c.framework, c.complexity, c.buildTime, c.performanceScore, c.deployUrl)
    {
      RestoreContent(c);
      RestoreMetadata(c);
    }

    method RestoreIdentity(c: Columns)
      modifies this`name, this`description, this`createdAt, this`updatedAt
      ensures IdentityPart() == (c.name, c.description, c.createdAt, c.updatedAt)
    {
      name, description, createdAt, updatedAt := c.name, c.description, c.createdAt, c.updatedAt;
    }

    method RestoreRun(c: Columns)
      modifies this`status, this`startedAt, this`completedAt, this`currentAgent, this`progress,
        this`estimatedCompletion, this`errorMessage
      ensures RunPart() ==
        (c.status, c.startedAt, c.completedAt, c.currentAgent, c.progress, c.estimatedCompletion, c.errorMessage)
    {
      status, startedAt, completedAt, currentAgent := c.status, c.startedAt, c.completedAt, c.currentAgent;
      progress, estimatedCompletion, errorMessage := c.progress, c.estimatedCompletion, c.errorMessage;
    }

    method RestoreContent(c: Columns)
      modifies this`generatedCode, this`specifications, this`architecture, this`design, this`techStack, this`features
      ensures ContentPart() ==
        (c.generatedCode, c.specifications, c.architecture, c.design, c.techStack, c.features)
    {
      generatedCode, specifications, architecture := c.generatedCode, c.specifications, c.architecture;
      design, techStack, features := c.design, c.techStack, c.features;
    }

    method RestoreMetadata(c: Columns)
      modifies this`framework, this`complexity, this`buildTime, this`performanceScore, this`deployUrl
      ensures MetadataPart() == (c.framework, c.complexity, c.buildTime, c.performanceScore, c.deployUrl)
    {
      framework, complexity, buildTime := c.framework, c.complexity, c.buildTime;
      performanceScore, deployUrl := c.performanceScore, c.deployUrl;
    }

    /** `to_dict`. `None` stands for the exception `json.loads` raises on a JSON column
        whose text does not parse. */
    function ToDict(codec: JsonCodec): (r: Option<ProjectDict>)
      reads this
      ensures r.Some? <==>
        Load(codec, specifications).Some? && Load(codec, architecture).Some? && Load(codec, generatedCode).Some?
      ensures r.Some? ==> r.value.status == Str(status) && r.value.progress == Num(progress)
      ensures r.Some? ==> r.value.name == Str(name) && r.value.description == Str(description)
      ensures r.Some? ==> (r.value.startedAt == Null <==> startedAt.None?)
      ensures r.Some? ==> (r.value.completedAt == Null <==> completedAt.None?)
      ensures r.Some? ==> (r.value.currentAgent == Null <==> currentAgent.None?)
    {
      var spec := Load(codec, specifications);
      var arch := Load(codec, architecture);
      var code := Load(codec, generatedCode);
      if spec.None? || arch.None? || code.None? then None
      else Some(ProjectDict(
        id := Num(id),
        name := Str(name),
        description := Str(description),
        status := Str(status),
        startedAt := Timestamp(startedAt),
        completedAt := Timestamp(completedAt),
        currentAgent := OptStr(currentAgent),
        progress := Num(progress),
        specifications := spec.value,
        architecture := arch.value,
        generatedCode := code.value,
        createdAt := Num(createdAt),
        updatedAt := Num(updatedAt)))
    }
  }

  /** The columns of a `Project` row other than its id. */
  datatype Columns = Columns(
    name: string, description: string, status: string,
    startedAt: Option<int>, completedAt: Option<int>, currentAgent: Option<string>, progress: int,
    estimatedCompletion: Option<int>, errorMessage: Option<string>,
    generatedCode: Option<string>, specifications: Option<string>, architecture: Option<string>, design: Option<string>,
    framework: Option<string>, complexity: Option<string>, buildTime: Option<string>, performanceScore: Option<int>,
    techStack: Option<string>, features: Option<string>, deployUrl: Option<string>,
    createdAt: int, updatedAt: int)

  /** The columns of a row just inserted: the given ones, `created_at` and `updated_at`
      at `now`, progress 0 and every other column null. */
  function FreshColumns(name: string, description: string, status: string,
                        framework: Option<string>, complexity: Option<string>, now: int): Columns
  {
    Columns(name, description, status, None, None, None, 0, None, None,
      None, None, None, None, framework, complexity, None, None, None, None, None, now, now)
  }

  /** The dictionary `to_dict` returns: exactly these thirteen keys, so `design`,
      `framework` and the other metadata columns are not exposed. */
  datatype ProjectDict = ProjectDict(
    id: Value, name: Value, description: Value, status: Value,
    startedAt: Value, completedAt: Value, currentAgent: Value, progress: Value,
    specifications: Value, architecture: Value, generatedCode: Value,
    createdAt: Value, updatedAt: Value)
  {
    /** The key names, in the order `to_dict` lists them. */
    static const Keys: seq<string> := ["id", "name", "description", "status", "started_at", "completed_at",
      "current_agent", "progress", "specifications", "architecture", "generated_code", "created_at", "updated_at"]
  }

  /** `t.isoformat() if t else None`, with the number standing for the text. */
  function Timestamp(t: Option<int>): (r: Value)
    ensures t.None? <==> r == Null
  {
    if t.Some? then Num(t.value) else Null
  }

  /** After the setters stored `s`, `a` and `g`, `to_dict` gives each back, or `None`
      for one that was falsy. */
  lemma ToDictAfterSetters(p: Project, codec: JsonCodec, s: Value, a: Value, g: Value)
    requires Lawful(codec)
    requires p.specifications == Stored(codec, s) && p.architecture == Stored(codec, a)
    requires p.generatedCode == Stored(codec, g)
    ensures p.ToDict(codec).Some?
    ensures p.ToDict(codec).value.specifications == (if Truthy(s) then s else Null)
    ensures p.ToDict(codec).value.architecture == (if Truthy(a) then a else Null)
    ensures p.ToDict(codec).value.generatedCode == (if Truthy(g) then g else Null)
  {
    StoredRoundTrip(codec, s);
    StoredRoundTrip(codec, a);
    StoredRoundTrip(codec, g);
  }

  /** The `projects` table: rows by id, ids allocated in increasing order, and whether
      the (single) user row exists. */
  class ProjectStore {
    var projects: map<int, Project>
    var nextId: int
    var hasUser: bool

    ghost predicate Valid()
      reads this, projects.Values
    {
      && nextId >= 1
      && (projects != map[] ==> hasUser)
      && (forall i :: i in projects ==> 0 < i < nextId && projects[i].id == i)
      && (forall i, j :: i in projects && j in projects && i != j ==> projects[i] != projects[j])
    }

    /** The row a handler for `id` may change. */
    function Row(id: int): set<Project>
      reads this
    {
      if id in projects then {projects[id]} else {}
    }

    constructor ()
      ensures projects == map[] && nextId == 1 && !hasUser && Valid()
    {
      projects := map[];
      nextId := 1;
      hasUser := false;
    }
  }
}

/**
 * The project routes: create with its validation and defaults, get, the whitelisted
 * field merge of update with its once-only timestamps, delete, and the dashboard
 * statistics. A handler is a method on the `ProjectStore` that returns the HTTP
 * status it answers with; every project belongs to the single user row.
 */
module Projects {
  import opened Wrappers
  import opened Json
  import opened ProjectModel

  /** The JSON body of `POST /projects`. `Present(None)` is a JSON `null`. */
  datatype CreateRequest = CreateRequest(
    name: Field<Option<string>>,
    description: Field<Option<string>>,
    framework: Field<Option<string>>,
    complexity: Field<Option<string>>,
    techStack: Field<Value>,
    features: Field<Value>)

  /** A present string-or-null field as the constructor sees it: `null` and `""` are
      both falsy, so both stand as `""`. */
  function TextOf(f: Field<Option<string>>): string
    requires f.Present?
  {
    f.value.GetOr("")
  }

  /** `data.get(key, default)`: the given value, `null` included, or the default. */
  function GetOr(f: Field<Option<string>>, default: string): (r: Option<string>)
    ensures f.Absent? ==> r == Some(default)
    ensures f.Present? ==> r == f.value
  {
    match f
    case Absent => Some(default)
    case Present(v) => v
  }

  /** A JSON column after `set_tech_stack`/`set_features` ran only when the key was sent. */
  function SetIfPresent(codec: JsonCodec, f: Field<Value>, column: Option<string>): Option<string>
  {
    match f
    case Absent => column
    case Present(v) => Stored(codec, v)
  }

  /** The row `create_project` builds, once both required keys were sent, before adding
      it: the constructor's row for the request's fields, then `tech_stack` and `features` stored when the request sent them. */
  method NewRow(id: int, req: CreateRequest, codec: JsonCodec, now: int) returns (r: Result<Project, string>)
    requires req.name.Present? && req.description.Present?
    ensures r.Failure? <==> TextOf(req.name) == "" || TextOf(req.description) == ""
    ensures r.Success? ==>
      && fresh(r.value) && r.value.id == id
      && r.value.Snapshot() == FreshColumns(TextOf(req.name), TextOf(req.description), Draft,
           GetOr(req.framework, "React"), GetOr(req.complexity, "medium"), now).(
           techStack := SetIfPresent(codec, req.techStack, None), features := SetIfPresent(codec, req.features, None))
      && r.value.ToDict(codec).Some?
  {
    r := Project.Create(id, TextOf(req.name), TextOf(req.description), Draft,
                        GetOr(req.framework, "React"), GetOr(req.complexity, "medium"), now);
    if r.Success? {
      if req.techStack.Present? {
        r.value.SetTechStack(codec, req.techStack.value);
      }
      if req.features.Present? {
        r.value.SetFeatures(codec, req.features.value);
      }
    }
  }

  /** `create_project`. 400 unless both `name` and `description` are sent; 500 when the
      constructor refuses a falsy name or description (the user row is created and
      committed before that); otherwise a new `draft` row with the next id, framework
      `React` and complexity `medium` unless sent, and the JSON metadata columns the
      request carried. */
  method CreateProject(store: ProjectStore, req: CreateRequest, codec: JsonCodec, now: int)
    returns (code: int, id: Option<int>)
    requires store.Valid()
    modifies store
    ensures store.Valid()
    ensures code in {201, 400, 500}
    ensures code == 400 <==> req.name.Absent? || req.description.Absent?
    ensures code == 500 <==> code != 400 && (TextOf(req.name) == "" || TextOf(req.description) == "")
    ensures code == 400 ==> store.hasUser == old(store.hasUser)
    ensures code != 400 ==> store.hasUser
    ensures code != 201 ==> id.None? && store.projects == old(store.projects) && store.nextId == old(store.nextId)
    ensures code == 201 ==>
      && id == Some(old(store.nextId)) && store.nextId == old(store.nextId) + 1
      && id.value !in old(store.projects) && id.value in store.projects
      && store.projects == old(store.projects)[id.value := store.projects[id.value]]
      && fresh(store.projects[id.value])
    ensures code == 201 ==>
      var p := store.projects[id.value];
      && p.id == id.value
      && p.Snapshot() == FreshColumns(TextOf(req.name), TextOf(req.description), Draft,
           GetOr(req.framework, "React"), GetOr(req.complexity, "medium"), now).(
           techStack := SetIfPresent(codec, req.techStack, None), features := SetIfPresent(codec, req.features, None))
      && p.ToDict(codec).Some?
  {
    if req.name.Absent? || req.description.Absent? {
      return 400, None;
    }
    store.hasUser := true;
    var r := NewRow(store.nextId, req, codec, now);
    if r.Failure? {
      return 500, None;
    }
    var p := r.value;
    store.projects := store.projects[store.nextId := p];
    id := Some(store.nextId);
    store.nextId := store.nextId + 1;
    code := 201;
  }

  /** What a handler answers: the status and, with 200, the rendered project. */
  datatype Reply = Reply(code: int, project: Option<ProjectDict>)

  /** `get_project`: 404 for an unknown id, 500 when `to_dict` raises on a JSON
      column that does not parse, else the project's `to_dict`. */
  function GetProject(store: ProjectStore, id: int, codec: JsonCodec): (r: Reply)
    reads store, store.Row(id)
    ensures r.code in {200, 404, 500}
    ensures r.code == 404 <==> id !in store.projects
    ensures r.code == 200 <==> id in store.projects && store.projects[id].ToDict(codec).Some?
    ensures r.code == 200 ==> r.project == store.projects[id].ToDict(codec)
    ensures r.code != 200 ==> r.project.None?
  {
    if id !in store.projects then Reply(404, None)
    else
      var d := store.projects[id].ToDict(codec);
      if d.None? then Reply(500, None) else Reply(200, d)
  }

  /** The JSON body of `PUT /projects/<id>`, one field per whitelisted key. */
  datatype UpdateRequest = UpdateRequest(
    name: Field<string>,
    description: Field<string>,
    status: Field<Option<string>>,
    framework: Field<Option<string>>,
    complexity: Field<Option<string>>,
    currentAgent: Field<Option<string>>,
    progress: Field<int>,
    errorMessage: Field<Option<string>>,
    generatedCode: Field<Value>,
    specifications: Field<Value>,
    architecture: Field<Value>,
    design: Field<Value>,
    techStack: Field<Value>,
    features: Field<Value>,
    deployUrl: Field<Option<string>>,
    buildTime: Field<Option<string>>,
    performanceScore: Field<Option<int>>)

  /** `setattr(project, field, data[field])` when the key was sent. */
  function Merge<T>(f: Field<T>, current: T): T
  {
    match f
    case Absent => current
    case Present(v) => v
  }

  /** Whether the body sets `status` to one of the given value's kind. */
  predicate SendsStatus(status: Field<Option<string>>, value: string)
  {
    status.Present? && status.value == Some(value)
  }

  predicate SendsTerminal(status: Field<Option<string>>)
  {
    status.Present? && status.value.Some? && IsTerminal(status.value.value)
  }

  /** The timestamp rule of `update_project`: `started_at` is stamped when the body sets
      `generating` and it was unset; otherwise `completed_at` is stamped when the body
      sets a terminal status and it was unset. A stamp is never overwritten, at most
      one of the two changes, and each changes only by being set to `now`. */
  function Stamps(status: Field<Option<string>>, startedAt: Option<int>, completedAt: Option<int>, now: int)
    : (r: (Option<int>, Option<int>))
    ensures startedAt.Some? ==> r.0 == startedAt
    ensures completedAt.Some? ==> r.1 == completedAt
    ensures r.0 != startedAt <==> SendsStatus(status, Generating) && startedAt.None?
    ensures r.1 != completedAt <==> SendsTerminal(status) && completedAt.None?
    ensures r.0 != startedAt ==> r.0 == Some(now)
    ensures r.1 != completedAt ==> r.1 == Some(now)
    ensures r.0 == startedAt || r.1 == completedAt
  {
    if SendsStatus(status, Generating) && startedAt.None? then (Some(now), completedAt)
    else if SendsTerminal(status) && completedAt.None? then (startedAt, Some(now))
    else (startedAt, completedAt)
  }

  /** Whether the body sends a (non-null) status. */
  predicate SendsSomeStatus(status: Field<Option<string>>)
  {
    status.Present? && status.value.Some?
  }

  /** The row after `update_project`: each whitelisted key the body carries overwrites
      its column (`status` included, with no transition check; the model's `status` is
      a string, so a JSON null for it keeps the old status), the JSON columns
      go through their setters, the timestamps follow `Stamps` and `updated_at` becomes
      `now`. A key the body leaves out keeps its column. */
  function Updated(c: Columns, req: UpdateRequest, codec: JsonCodec, now: int): (r: Columns)
    ensures r.updatedAt == now && r.createdAt == c.createdAt && r.estimatedCompletion == c.estimatedCompletion
    ensures (r.startedAt, r.completedAt) == Stamps(req.status, c.startedAt, c.completedAt, now)
    ensures SendsSomeStatus(req.status) ==> r.status == req.status.value.value
    ensures !SendsSomeStatus(req.status) ==> r.status == c.status
    ensures req.name.Absent? ==> r.name == c.name
    ensures req.name.Present? ==> r.name == req.name.value
    ensures req.progress.Absent? ==> r.progress == c.progress
    ensures req.progress.Present? ==> r.progress == req.progress.value
    ensures req.specifications.Absent? ==> r.specifications == c.specifications
    ensures req.specifications.Present? ==> r.specifications == Stored(codec, req.specifications.value)
    ensures req.generatedCode.Absent? ==> r.generatedCode == c.generatedCode
    ensures req.generatedCode.Present? ==> r.generatedCode == Stored(codec, req.generatedCode.value)
    ensures req.description.Absent? ==> r.description == c.description
    ensures req.description.Present? ==> r.description == req.description.value
    ensures req.framework.Absent? ==> r.framework == c.framework
    ensures req.framework.Present? ==> r.framework == req.framework.value
    ensures req.complexity.Absent? ==> r.complexity == c.complexity
    ensures req.complexity.Present? ==> r.complexity == req.complexity.value
    ensures req.currentAgent.Absent? ==> r.currentAgent == c.currentAgent
    ensures req.currentAgent.Present? ==> r.currentAgent == req.currentAgent.value
    ensures req.errorMessage.Absent? ==> r.errorMessage == c.errorMessage
    ensures req.errorMessage.Present? ==> r.errorMessage == req.errorMessage.value
    ensures req.deployUrl.Absent? ==> r.deployUrl == c.deployUrl
    ensures req.deployUrl.Present? ==> r.deployUrl == req.deployUrl.value
    ensures req.buildTime.Absent? ==> r.buildTime == c.buildTime
    ensures req.buildTime.Present? ==> r.buildTime == req.buildTime.value
    ensures req.performanceScore.Absent? ==> r.performanceScore == c.performanceScore
    ensures req.performanceScore.Present? ==> r.performanceScore == req.performanceScore.value
    ensures req.architecture.Absent? ==> r.architecture == c.architecture
    ensures req.architecture.Present? ==> r.architecture == Stored(codec, req.architecture.value)
    ensures req.design.Absent? ==> r.design == c.design
    ensures req.design.Present? ==> r.design == Stored(codec, req.design.value)
    ensures req.techStack.Absent? ==> r.techStack == c.techStack
    ensures req.techStack.Present? ==> r.techStack == Stored(codec, req.techStack.value)
    ensures req.features.Absent? ==> r.features == c.features
    ensures req.features.Present? ==> r.features == Stored(codec, req.features.value)
  {
    var stamps := Stamps(req.status, c.startedAt, c.completedAt, now);
    c.(
      name := Merge(req.name, c.name),
      description := Merge(req.description, c.description),
      status := Merge(req.status, Some(c.status)).GetOr(c.status),
      framework := Merge(req.framework, c.framework),
      complexity := Merge(req.complexity, c.complexity),
      currentAgent := Merge(req.currentAgent, c.currentAgent),
      progress := Merge(req.progress, c.progress),
      errorMessage := Merge(req.errorMessage, c.errorMessage),
      generatedCode := SetIfPresent(codec, req.generatedCode, c.generatedCode),
      specifications := SetIfPresent(codec, req.specifications, c.specifications),
      architecture := SetIfPresent(codec, req.architecture, c.architecture),
      design := SetIfPresent(codec, req.design, c.design),
      techStack := SetIfPresent(codec, req.techStack, c.techStack),
      features := SetIfPresent(codec, req.features, c.features),
      deployUrl := Merge(req.deployUrl, c.deployUrl),
      buildTime := Merge(req.buildTime, c.buildTime),
      performanceScore := Merge(req.performanceScore, c.performanceScore),
      startedAt := stamps.0,
      completedAt := stamps.1,
      updatedAt := now)
  }

  /** A body that carries no whitelisted key. */
  const EmptyUpdate := UpdateRequest(Absent, Absent, Absent, Absent, Absent, Absent, Absent, Absent,
    Absent, Absent, Absent, Absent, Absent, Absent, Absent, Absent, Absent)

  /** An empty body only refreshes `updated_at`. */
  lemma EmptyUpdateTouchesOnlyUpdatedAt(c: Columns, codec: JsonCodec, now: int)
    ensures Updated(c, EmptyUpdate, codec, now) == c.(updatedAt := now)
  {
  }

  /** Sending the same body twice leaves the row as sending it once, but for
      `updated_at`: the merged values are already in place and the stamps are not
      overwritten. */
  lemma UpdateIdempotent(c: Columns, req: UpdateRequest, codec: JsonCodec, now: int, later: int)
    ensures Updated(Updated(c, req, codec, now), req, codec, later) == Updated(c, req, codec, now).(updatedAt := later)
  {
  }

  /** `update_project`: 404 for an unknown id, when there is no row it may change,
      else the row's columns become `Updated` of their old values and its id stays. */
  method UpdateProject(store: ProjectStore, id: int, req: UpdateRequest, codec: JsonCodec, now: int)
    returns (code: int)
    modifies store.Row(id)
    ensures code == 404 <==> id !in store.projects
    ensures code == 404 || code == 200
    ensures code == 200 ==>
      store.projects[id].Snapshot() == Updated(old(store.projects[id].Snapshot()), req, codec, now) &&
      store.projects[id].id == old(store.projects[id].id)
  {
    if id !in store.projects {
      return 404;
    }
    var p := store.projects[id];
    p.Restore(Updated(p.Snapshot(), req, codec, now));
    code := 200;
  }

  /** `delete_project`: 404 for an unknown id with no change, else the row is gone and
      every other row stays. */
  method DeleteProject(store: ProjectStore, id: int) returns (code: int)
    requires store.Valid()
    modifies store`projects
    ensures store.Valid()
    ensures code == 404 <==> id !in old(store.projects)
    ensures code == 404 || code == 200
    ensures code == 404 ==> store.projects == old(store.projects)
    ensures code == 200 ==> store.projects == old(store.projects) - {id}
  {
    if id !in store.projects {
      return 404;
    }
    store.projects := store.projects - {id};
    code := 200;
  }

  /** The ids of the projects with the given status. */
  function WithStatus(projects: map<int, Project>, status: string): (r: set<int>)
    reads projects.Values
    ensures r <= projects.Keys
    ensures forall i :: i in r <==> i in projects && projects[i].status == status
  {
    set i | i in projects && projects[i].status == status
  }

  datatype ProjectStats = ProjectStats(totalProjects: nat, deployed: nat, building: nat, totalViews: nat)

  /** `get_project_stats`: all zero when no user row exists; else the number of
      projects, of `completed` ones (deployed) and of `generating` ones (building), and
      the views figure 150 per project plus 500 per deployed one. */
  function Stats(store: ProjectStore): (s: ProjectStats)
    reads store, store.projects.Values
    ensures !store.hasUser ==> s == ProjectStats(0, 0, 0, 0)
    ensures store.hasUser ==> s.totalProjects == |store.projects|
    ensures store.hasUser ==> s.deployed == |WithStatus(store.projects, Completed)|
    ensures store.hasUser ==> s.building == |WithStatus(store.projects, Generating)|
    ensures s.totalViews == s.totalProjects * 150 + s.deployed * 500
  {
    if !store.hasUser then ProjectStats(0, 0, 0, 0)
    else
      var total := |store.projects|;
      var deployed := |WithStatus(store.projects, Completed)|;
      ProjectStats(total, deployed, |WithStatus(store.projects, Generating)|, total * 150 + deployed * 500)
  }

  /** A subset has no more elements than its superset. */
  lemma {:induction false} SubsetCard(a: set<int>, b: set<int>)
    requires a <= b
    ensures |a| <= |b|
    decreases |b|
  {
    if forall x :: x !in a {
      assert a == {};
    } else {
      var x :| x in a;
      SubsetCard(a - {x}, b - {x});
    }
  }

  /** No project is both deployed and building, so the two counts add up to at most
      the total, and the views lie between 150 and 650 per project. */
  lemma StatsBounds(store: ProjectStore)
    ensures Stats(store).deployed + Stats(store).building <= Stats(store).totalProjects
    ensures 150 * Stats(store).totalProjects <= Stats(store).totalViews <= 650 * Stats(store).totalProjects
  {
    if store.hasUser {
      var a := WithStatus(store.projects, Completed);
      var b := WithStatus(store.projects, Generating);
      assert a * b == {};
      assert |a + b| == |a| + |b|;
      SubsetCard(a + b, store.projects.Keys);
    }
  }
}

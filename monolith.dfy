/** The single-process API: projects and tasks in one database, listed newest first,
    with creation through the document schemas only, an update patch built from an
    allowed-key list, and global counts. */
module Monolith {
  import opened Wrappers
  import opened Json
  import opened Seqs
  import opened Http
  import PM = ProjectModel
  import PS = ProjectService
  import opened TaskModel
  import TV = TaskValidators
  import TS = TaskService

  datatype ApiStats = ApiStats(projects: nat, tasks: nat, todo: nat, doing: nat, done: nat)

  /** The keys an update may touch, in the order the handler walks them. */
  const Allowed: seq<string> := ["title", "description", "status", "priority", "dueDate", "assignee"]

  const AllowedKeys: set<string> := set k | k in Allowed

  /** The request body as the handlers see it; anything but an object reads as `{}`. */
  function Fields(body: Payload): Body {
    if body.Object? then body.fields else map[]
  }

  /** A string-valued field, if the body has one. */
  function Text(b: Body, key: string): (r: Option<string>)
    ensures r.Some? <==> key in b && b[key].Str?
    ensures r.Some? ==> b[key] == Str(r.value)
  {
    if key in b && b[key].Str? then Some(b[key].s) else None
  }

  /** The document handed to the task model on creation: `dueDate || null` turns a
      missing, null or empty due date into null, and `assignee || ''` turns a missing
      or empty assignee into "". */
  function NewTaskFields(b: Body): (f: TaskFields)
    ensures f.title == Text(b, "title") && f.description == Text(b, "description")
    ensures f.status == Text(b, "status") && f.priority == Text(b, "priority")
    ensures f.dueDate.None? <==> Text(b, "dueDate").None? || Text(b, "dueDate") == Some("")
    ensures f.dueDate.Some? ==> f.dueDate == Text(b, "dueDate")
    ensures f.assignee == Text(b, "assignee").GetOr("")
  {
    var due := Text(b, "dueDate");
    TaskFields(Text(b, "title"), Text(b, "description"), Text(b, "status"), Text(b, "priority"),
               if due == Some("") then None else due, Text(b, "assignee").GetOr(""))
  }

  /** The allowed-key restriction of a body, as a specification. */
  function Restrict(b: Body): (r: Body)
    ensures r.Keys == b.Keys * AllowedKeys
    ensures forall k :: k in r ==> r[k] == b[k]
  {
    map k | k in b && k in AllowedKeys :: b[k]
  }

  /** Keys outside the allowed list have no effect on the patch. */
  lemma IgnoredKeysDontMatter(b: Body, k: string, v: Value)
    requires k !in AllowedKeys
    ensures Restrict(b[k := v]) == Restrict(b)
  {
    assert Restrict(b[k := v]).Keys == Restrict(b).Keys;
  }

  predicate PatchValueOk(patch: Body, key: string, castDate: string -> bool)
    requires key in patch
  {
    match patch[key]
    case Str(s) =>
      if key == "title" then TitleOk(s)
      else if key == "description" then |s| <= DescriptionMax
      else if key == "status" then ParseStatus(s).Some?
      else if key == "priority" then ParsePriority(s).Some?
      else if key == "dueDate" then s == "" || castDate(s)
      else true
    case Null => key == "dueDate"
    case Other => false
  }

  function Opt(patch: Body, key: string): Option<string>
    requires key in patch ==> patch[key].Str?
  {
    if key in patch then Some(patch[key].s) else None
  }

  /** One check per allowed key, in the list's order: an absent key passes. */
  function PatchChecks(patch: Body, castDate: string -> bool): (cs: seq<Check>)
    requires patch.Keys <= AllowedKeys
    ensures |cs| == |Allowed|
    ensures forall i :: 0 <= i < |cs| ==> cs[i].path == Allowed[i]
    ensures forall i :: 0 <= i < |cs| ==> (cs[i].ok <==> Allowed[i] !in patch || PatchValueOk(patch, Allowed[i], castDate))
  {
    seq(|Allowed|, i requires 0 <= i < |Allowed| =>
      Check(Allowed[i], Allowed[i] !in patch || PatchValueOk(patch, Allowed[i], castDate)))
  }

  /** The checks all pass exactly when every field of the patch meets its rule. */
  lemma PatchChecksPass(patch: Body, castDate: string -> bool)
    requires patch.Keys <= AllowedKeys
    ensures Failing(PatchChecks(patch, castDate)) == [] <==> forall k :: k in patch ==> PatchValueOk(patch, k, castDate)
  {
    var cs := PatchChecks(patch, castDate);
    if Failing(cs) == [] {
      forall k | k in patch ensures PatchValueOk(patch, k, castDate) {
        assert k in AllowedKeys;
        var i :| 0 <= i < |Allowed| && Allowed[i] == k;
        assert cs[i].ok;
      }
    } else {
      var i :| 0 <= i < |cs| && !cs[i].ok;
      assert Allowed[i] in patch;
    }
  }

  /** Casting and validating the patch against the task schema: strings within the
      field's rules; the due date may also be null or "" (both clear it). */
  function ValidatePatch(patch: Body, castDate: string -> bool): (r: Result<TV.TaskPatch, seq<string>>)
    requires patch.Keys <= AllowedKeys
    ensures r.Ok? <==> forall k :: k in patch ==> PatchValueOk(patch, k, castDate)
    ensures r.Err? ==> r.error != []
    ensures r.Ok? ==>
      && (r.value.title.Some? <==> "title" in patch) && (r.value.title.Some? ==> TitleOk(r.value.title.value))
      && (r.value.description.Some? <==> "description" in patch) && DescriptionOk(r.value.description)
      && (r.value.status.Some? <==> "status" in patch)
      && (r.value.priority.Some? <==> "priority" in patch)
      && (r.value.assignee.Some? <==> "assignee" in patch)
      && (r.value.dueDate.NoDue? <==> "dueDate" !in patch)
      && (r.value.dueDate.DueAt? ==> castDate(r.value.dueDate.iso))
    ensures r.Ok? ==>
      && r.value.title == Opt(patch, "title")
      && r.value.description == Opt(patch, "description")
      && r.value.assignee == Opt(patch, "assignee")
      && r.value.status == (if "status" in patch then ParseStatus(patch["status"].s) else None)
      && r.value.priority == (if "priority" in patch then ParsePriority(patch["priority"].s) else None)
      && r.value.dueDate == (if "dueDate" !in patch then TV.NoDue
                             else if patch["dueDate"] in {Null, Str("")} then TV.NullDue
                             else TV.DueAt(patch["dueDate"].s))
  {
    var issues := Failing(PatchChecks(patch, castDate));
    PatchChecksPass(patch, castDate);
    if issues == [] then
      var due :=
        if "dueDate" !in patch then TV.NoDue
        else if patch["dueDate"] == Null || patch["dueDate"] == Str("") then TV.NullDue
        else TV.DueAt(patch["dueDate"].s);
      Ok(TV.TaskPatch(Opt(patch, "title"), Opt(patch, "description"),
        if "status" in patch then ParseStatus(patch["status"].s) else None,
        if "priority" in patch then ParsePriority(patch["priority"].s) else None,
        due, Opt(patch, "assignee")))
    else
      Err(issues)
  }

  /** `GET /api/health`. */
  function Health(): (ok: bool)
    ensures ok
  {
    true
  }

  class Api {
    var projects: seq<PM.Project>
    var tasks: seq<Task>
    /** The id the next created document receives. */
    var nextId: nat
    /** The database's current time. */
    var clock: int
    /** `ObjectId.isValid` together with the cast of a valid id string. */
    const castId: string -> Option<nat>
    /** Which strings the task model casts to a date. */
    const castDate: string -> bool

    ghost predicate Valid()
      reads this
    {
      PS.TableOk(projects, nextId, clock) && TS.TableOk(tasks, nextId, clock)
    }

    constructor (castId: string -> Option<nat>, castDate: string -> bool, now: int)
      ensures Valid()
      ensures projects == [] && tasks == [] && nextId == 0 && clock == now
      ensures this.castId == castId && this.castDate == castDate
    {
      projects := [];
      tasks := [];
      nextId := 0;
      clock := now;
      this.castId := castId;
      this.castDate := castDate;
    }

    /** Time passes on the database server. */
    method Tick(dt: nat)
      requires Valid()
      modifies this
      ensures Valid()
      ensures clock == old(clock) + dt
      ensures projects == old(projects) && tasks == old(tasks) && nextId == old(nextId)
    {
      clock := clock + dt;
    }

    /** `GET /api/stats`: the project count, the task count and the per-status counts,
        which add up to the task count. */
    function Stats(): (r: ApiStats)
      reads this
      ensures r.projects == |projects| && r.tasks == |tasks|
      ensures r.todo + r.doing + r.done == r.tasks
      ensures r.todo == CountStatus(tasks, Todo) && r.doing == CountStatus(tasks, Doing)
              && r.done == CountStatus(tasks, Done)
    {
      StatusCountsSum(tasks);
      ApiStats(|projects|, |tasks|, CountStatus(tasks, Todo), CountStatus(tasks, Doing), CountStatus(tasks, Done))
    }

    /** `GET /api/projects`: every project, newest first. */
    function ListProjects(): (r: seq<PM.Project>)
      reads this
      requires Valid()
      ensures multiset(r) == multiset(projects)
      ensures DescendingBy(r, PS.CreatedAt)
    {
      ReverseAscendingBy(projects, PS.CreatedAt);
      ReverseMultiset(projects);
      Reverse(projects)
    }

    /** The write of `Project.create`: the new document joins its collection and the
        shared next id moves on. */
    method InsertProject(p: PM.Project)
      requires Valid()
      requires p.id == nextId && PM.Valid(p) && p.createdAt == clock == p.updatedAt
      modifies this
      ensures Valid()
      ensures projects == old(projects) + [p] && nextId == old(nextId) + 1
      ensures tasks == old(tasks) && clock == old(clock)
    {
      PS.TableOkAppend(projects, nextId, clock, p);
      TS.TableOkNext(tasks, nextId, clock);
      projects := projects + [p];
      nextId := nextId + 1;
    }

    /** The write of `Task.create`, likewise. */
    method InsertTask(t: Task)
      requires Valid()
      requires t.id == nextId && TaskModel.Valid(t) && t.createdAt == clock == t.updatedAt
      modifies this
      ensures Valid()
      ensures tasks == old(tasks) + [t] && nextId == old(nextId) + 1
      ensures projects == old(projects) && clock == old(clock)
    {
      TS.TableOkAppend(tasks, nextId, clock, t);
      PS.TableOkNext(projects, nextId, clock);
      tasks := tasks + [t];
      nextId := nextId + 1;
    }

    /** `POST /api/projects`: the name and description strings go straight to the
        model; 201 when it accepts them, 400 and nothing added otherwise. */
    method CreateProject(body: Payload) returns (reply: Reply<PM.Project>)
      requires Valid()
      modifies this
      ensures Valid()
      ensures clock == old(clock) && tasks == old(tasks)
      ensures var b := Fields(body);
        reply.Success? <==> Text(b, "name").Some? && PM.Storable(Text(b, "name").value, Text(b, "description"))
      ensures reply.Failure? ==> reply.status == BadRequest && projects == old(projects) && nextId == old(nextId)
      ensures reply.Success? ==>
        var b := Fields(body);
        && reply.status == Created
        && reply.value == PM.Project(old(nextId), Text(b, "name").value, Text(b, "description"), clock, clock)
        && projects == old(projects) + [reply.value] && nextId == old(nextId) + 1
    {
      var b := Fields(body);
      var name := Text(b, "name");
      if name.None? {
        reply := Invalid(["name"]);
        return;
      }
      var created := PM.Create(nextId, name.value, Text(b, "description"), clock);
      if created.Err? {
        reply := Invalid(created.error);
        return;
      }
      InsertProject(created.value);
      reply := Success(Created, created.value);
    }

    /** `GET /api/projects/:id`. */
    function GetProject(id: string): (reply: Reply<PM.Project>)
      reads this
      ensures castId(id).None? ==> reply == InvalidId()
      ensures castId(id).Some? && (forall p :: p in projects ==> p.id != castId(id).value) ==> reply == Missing()
      ensures castId(id).Some? && (exists p :: p in projects && p.id == castId(id).value) ==> reply.Success?
      ensures reply.Success? ==> reply.status == OK && reply.value in projects && Some(reply.value.id) == castId(id)
    {
      match castId(id)
      case None => InvalidId()
      case Some(oid) =>
        var found := PS.Find(projects, oid);
        if found.None? then Missing() else Success(OK, projects[found.value])
    }

    /** `GET /api/projects/:id/tasks`: exactly that project's tasks, newest first. */
    function ListTasks(id: string): (reply: Reply<seq<Task>>)
      reads this
      requires Valid()
      ensures castId(id).None? ==> reply == InvalidId()
      ensures castId(id).Some? ==>
        && reply.Success? && reply.status == OK
        && (forall t :: t in reply.value <==> t in tasks && t.projectId == castId(id).value)
        && multiset(reply.value) == multiset(Filter(tasks, TS.OfProject(castId(id).value)))
        && |reply.value| <= |tasks|
        && DescendingBy(reply.value, TS.CreatedAt)
    {
      match castId(id)
      case None => InvalidId()
      case Some(pid) => Success(OK, TS.NewestFirst(tasks, pid))
    }

    /** `POST /api/projects/:id/tasks`: any id that casts is accepted, whether or not a
        project has it; the document is the model's, built from the body's strings. */
    method CreateTask(id: string, body: Payload) returns (reply: Reply<Task>)
      requires Valid()
      modifies this
      ensures Valid()
      ensures clock == old(clock) && projects == old(projects)
      ensures castId(id).None? ==> reply == InvalidId()
      ensures reply.Success? <==>
                castId(id).Some? && Build(old(nextId), castId(id).value, NewTaskFields(Fields(body)), castDate, clock).Ok?
      ensures reply.Failure? ==> reply.status == BadRequest && tasks == old(tasks) && nextId == old(nextId)
      ensures reply.Success? ==>
        && reply.status == Created
        && Ok(reply.value) == Build(old(nextId), castId(id).value, NewTaskFields(Fields(body)), castDate, clock)
        && tasks == old(tasks) + [reply.value] && nextId == old(nextId) + 1
    {
      var pid := castId(id);
      if pid.None? {
        reply := InvalidId();
        return;
      }
      var built := Build(nextId, pid.value, NewTaskFields(Fields(body)), castDate, clock);
      if built.Err? {
        reply := Invalid(built.error);
        return;
      }
      InsertTask(built.value);
      reply := Success(Created, built.value);
    }

    /** The handler's loop: copy each allowed key the body has into the patch. */
    method BuildPatch(body: Body) returns (patch: Body)
      ensures patch.Keys == body.Keys * AllowedKeys
      ensures forall k :: k in patch ==> patch[k] == body[k]
    {
      patch := map[];
      for n := 0 to |Allowed|
        invariant patch.Keys == body.Keys * set i | 0 <= i < n :: Allowed[i]
        invariant forall k :: k in patch ==> k in body && patch[k] == body[k]
      {
        var k := Allowed[n];
        if k in body {
          patch := patch[k := body[k]];
        }
      }
      assert (set i | 0 <= i < |Allowed| :: Allowed[i]) == AllowedKeys;
    }

    /** `PUT /api/tasks/:taskId`: 400 for an id that does not cast or a patch the task
        schema refuses, 404 for a missing task; otherwise only the patched fields of
        that one task change. Keys outside the allowed list are ignored. */
    method UpdateTask(taskId: string, body: Payload) returns (reply: Reply<Task>)
      requires Valid()
      modifies this
      ensures Valid()
      ensures clock == old(clock) && nextId == old(nextId) && projects == old(projects)
      ensures castId(taskId).None? ==> reply == InvalidId()
      ensures castId(taskId).Some? && ValidatePatch(Restrict(Fields(body)), castDate).Err? ==>
                reply == Invalid(ValidatePatch(Restrict(Fields(body)), castDate).error)
      ensures (castId(taskId).Some? && ValidatePatch(Restrict(Fields(body)), castDate).Ok?
               && TS.Find(old(tasks), castId(taskId).value).None?) ==> reply == Missing()
      ensures reply.Failure? ==> tasks == old(tasks)
      ensures reply.Success? ==>
        && castId(taskId).Some? && ValidatePatch(Restrict(Fields(body)), castDate).Ok?
        && TS.Find(old(tasks), castId(taskId).value).Some?
        && var i := TS.Find(old(tasks), castId(taskId).value).value;
           && tasks == old(tasks)[i := TS.ApplyPatch(old(tasks)[i], ValidatePatch(Restrict(Fields(body)), castDate).value, clock)]
           && reply == Success(OK, tasks[i])
    {
      var id := castId(taskId);
      if id.None? {
        reply := InvalidId();
        return;
      }
      var patch := BuildPatch(Fields(body));
      assert patch == Restrict(Fields(body));
      var parsed := ValidatePatch(patch, castDate);
      if parsed.Err? {
        reply := Invalid(parsed.error);
        return;
      }
      var found := TS.Find(tasks, id.value);
      if found.None? {
        reply := Missing();
        return;
      }
      var i := found.value;
      var updated := TS.ApplyPatch(tasks[i], parsed.value, clock);
      TS.TableOkUpdate(tasks, nextId, clock, i, updated);
      tasks := tasks[i := updated];
      reply := Success(OK, updated);
    }

    /** `DELETE /api/tasks/:taskId`: 400 for an id that does not cast, 404 for a missing
        task; otherwise that task is gone, every other task stays, and the answer is ok. */
    method DeleteTask(taskId: string) returns (reply: Reply<bool>)
      requires Valid()
      modifies this
      ensures Valid()
      ensures clock == old(clock) && nextId == old(nextId) && projects == old(projects)
      ensures castId(taskId).None? ==> reply == InvalidId()
      ensures castId(taskId).Some? && TS.Find(old(tasks), castId(taskId).value).None? ==> reply == Missing()
      ensures reply.Failure? ==> tasks == old(tasks)
      ensures reply.Success? ==>
        && reply == Success(OK, true)
        && castId(taskId).Some? && TS.Find(old(tasks), castId(taskId).value).Some?
        && (var i := TS.Find(old(tasks), castId(taskId).value).value;
            tasks == old(tasks)[..i] + old(tasks)[i + 1..])
        && forall t :: t in tasks ==> t.id != castId(taskId).value
    {
      var id := castId(taskId);
      if id.None? {
        reply := InvalidId();
        return;
      }
      var found := TS.Find(tasks, id.value);
      if found.None? {
        reply := Missing();
        return;
      }
      var i := found.value;
      TS.TableOkRemove(tasks, nextId, clock, i);
      tasks := tasks[..i] + tasks[i + 1..];
      reply := Success(OK, true);
    }
  }
}

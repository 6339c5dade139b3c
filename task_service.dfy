/** The tasks service: a task table listed per project newest first, with create,
    update and delete by id, and per-status counts. An id that does not cast to an
    object id answers 400 before the table is read; a missing task answers 404. */
module TaskService {
  import opened Wrappers
  import opened Json
  import opened Seqs
  import opened Http
  import opened TaskModel
  import TV = TaskValidators

  datatype TaskStats = TaskStats(tasks: nat, todo: nat, doing: nat, done: nat, scope: string)

  function CreatedAt(t: Task): int {
    t.createdAt
  }

  function OfProject(pid: ObjectId): Task -> bool {
    (t: Task) => t.projectId == pid
  }

  /** `find({ projectId }).sort({ createdAt: -1 })` over a collection kept in creation
      order: exactly that project's tasks, newest first. */
  function NewestFirst(ts: seq<Task>, pid: ObjectId): (r: seq<Task>)
    requires AscendingBy(ts, CreatedAt)
    ensures forall t :: t in r <==> t in ts && t.projectId == pid
    ensures multiset(r) == multiset(Filter(ts, OfProject(pid)))
    ensures |r| <= |ts|
    ensures DescendingBy(r, CreatedAt)
  {
    var mine := Filter(ts, OfProject(pid));
    FilterAscendingBy(ts, OfProject(pid), CreatedAt);
    ReverseAscendingBy(mine, CreatedAt);
    ReverseMembers(mine);
    ReverseMultiset(mine);
    Reverse(mine)
  }

  /** The position of the task with id `id`, if any. */
  function Find(ts: seq<Task>, id: ObjectId): (r: Option<nat>)
    ensures r.Some? ==> r.value < |ts| && ts[r.value].id == id
    ensures r.None? ==> forall i :: 0 <= i < |ts| ==> ts[i].id != id
  {
    if ts == [] then None
    else if ts[0].id == id then Some(0)
    else
      var r := Find(ts[1..], id);
      if r.Some? then Some(r.value + 1) else None
  }

  /** What the task collection always satisfies: every task valid, stamped no later
      than now, ids below the next one and increasing, creation times in order. */
  ghost predicate TableOk(ts: seq<Task>, nextId: ObjectId, clock: int) {
    && (forall i :: 0 <= i < |ts| ==> ts[i].id < nextId && TaskModel.Valid(ts[i]) && ts[i].updatedAt <= clock)
    && (forall i, j :: 0 <= i < j < |ts| ==> ts[i].id < ts[j].id)
    && AscendingBy(ts, CreatedAt)
  }

  /** Deleting one task keeps the collection's invariant, and no task with that id is left. */
  lemma TableOkRemove(ts: seq<Task>, nextId: ObjectId, clock: int, i: nat)
    requires TableOk(ts, nextId, clock) && i < |ts|
    ensures TableOk(ts[..i] + ts[i + 1..], nextId, clock)
    ensures forall t :: t in ts[..i] + ts[i + 1..] ==> t.id != ts[i].id
  {
    var r := ts[..i] + ts[i + 1..];
    assert forall k :: 0 <= k < |r| ==> r[k] == if k < i then ts[k] else ts[k + 1];
    forall t | t in r ensures t.id != ts[i].id {
      var k :| 0 <= k < |r| && r[k] == t;
    }
  }

  /** Appending a valid task stamped now, with the next id, keeps the collection's
      invariant under the following id. */
  lemma TableOkAppend(ts: seq<Task>, nextId: ObjectId, clock: int, t: Task)
    requires TableOk(ts, nextId, clock)
    requires t.id == nextId && TaskModel.Valid(t) && t.createdAt == clock == t.updatedAt
    ensures TableOk(ts + [t], nextId + 1, clock)
  {
    var r := ts + [t];
    assert forall k :: 0 <= k < |ts| ==> r[k] == ts[k];
    assert forall k :: 0 <= k < |ts| ==> ts[k].createdAt <= ts[k].updatedAt;
  }

  /** Replacing a task by one with the same id and creation time, valid and stamped
      no later than now, keeps the collection's invariant. */
  lemma TableOkUpdate(ts: seq<Task>, nextId: ObjectId, clock: int, i: nat, t: Task)
    requires TableOk(ts, nextId, clock) && i < |ts|
    requires t.id == ts[i].id && t.createdAt == ts[i].createdAt && TaskModel.Valid(t) && t.updatedAt <= clock
    ensures TableOk(ts[i := t], nextId, clock)
  {
    var r := ts[i := t];
    assert forall k :: 0 <= k < |ts| ==> r[k].id == ts[k].id && r[k].createdAt == ts[k].createdAt;
  }

  /** A later next id keeps the collection's invariant. */
  lemma TableOkNext(ts: seq<Task>, nextId: ObjectId, clock: int)
    requires TableOk(ts, nextId, clock)
    ensures TableOk(ts, nextId + 1, clock)
  {
  }

  /** `{ ...req.body, projectId }`: the body's own fields, with the path's project id
      in place of whatever `projectId` the body carried. A body that is not an object
      contributes nothing the schema keeps. */
  function CreateInput(body: Payload, projectId: string): (b: Body)
    ensures "projectId" in b && b["projectId"] == Str(projectId)
    ensures forall k :: k != "projectId" ==> (k in b <==> body.Object? && k in body.fields)
    ensures forall k :: k in b && k != "projectId" ==> b[k] == body.fields[k]
  {
    (if body.Object? then body.fields else map[])["projectId" := Str(projectId)]
  }

  /** `findByIdAndUpdate` with a validated patch: the fields the patch names take its
      values (a null due date clears it), every other field keeps its value, and the
      update time is stamped. */
  function ApplyPatch(t: Task, p: TV.TaskPatch, now: int): (r: Task)
    ensures r.id == t.id && r.projectId == t.projectId && r.createdAt == t.createdAt && r.updatedAt == now
    ensures p.title.None? ==> r.title == t.title
    ensures p.title.Some? ==> r.title == p.title.value
    ensures p.description.None? ==> r.description == t.description
    ensures p.description.Some? ==> r.description == p.description
    ensures p.status.None? ==> r.status == t.status
    ensures p.status.Some? ==> r.status == p.status.value
    ensures p.priority.None? ==> r.priority == t.priority
    ensures p.priority.Some? ==> r.priority == p.priority.value
    ensures p.dueDate.NoDue? ==> r.dueDate == t.dueDate
    ensures p.dueDate.NullDue? ==> r.dueDate == None
    ensures p.dueDate.DueAt? ==> r.dueDate == Some(p.dueDate.iso)
    ensures p.assignee.None? ==> r.assignee == t.assignee
    ensures p.assignee.Some? ==> r.assignee == p.assignee.value
    ensures (TaskModel.Valid(t) && t.updatedAt <= now && (p.title.Some? ==> TitleOk(p.title.value))
             && DescriptionOk(p.description)) ==> TaskModel.Valid(r)
  {
    Task(
      t.id, t.projectId, p.title.GetOr(t.title),
      if p.description.Some? then p.description else t.description,
      p.status.GetOr(t.status), p.priority.GetOr(t.priority),
      match p.dueDate
        case NoDue => t.dueDate
        case NullDue => None
        case DueAt(iso) => Some(iso),
      p.assignee.GetOr(t.assignee), t.createdAt, now)
  }

  /** The empty update changes nothing but the update time. */
  lemma EmptyPatchOnlyStamps(t: Task, now: int)
    ensures ApplyPatch(t, TV.EmptyPatch, now) == t.(updatedAt := now)
  {
  }

  /** `GET /health`. */
  function Health(): (r: HealthReport)
    ensures r.ok && r.service == "tasks"
  {
    HealthReport(true, "tasks")
  }

  class TaskStore {
    /** The Task collection in creation order. */
    var tasks: seq<Task>
    /** The id the next created task receives. */
    var nextId: ObjectId
    /** The database's current time. */
    var clock: int
    /** `ObjectId.isValid` together with the cast of a valid id string. */
    const castId: string -> Option<ObjectId>
    /** zod's datetime format check; a string it accepts casts to a date. */
    const isDateTime: string -> bool

    ghost predicate Valid()
      reads this
    {
      TableOk(tasks, nextId, clock)
    }

    constructor (castId: string -> Option<ObjectId>, isDateTime: string -> bool, now: int)
      ensures Valid()
      ensures tasks == [] && nextId == 0 && clock == now
      ensures this.castId == castId && this.isDateTime == isDateTime
    {
      tasks := [];
      nextId := 0;
      clock := now;
      this.castId := castId;
      this.isDateTime := isDateTime;
    }

    /** Time passes on the database server. */
    method Tick(dt: nat)
      requires Valid()
      modifies this
      ensures Valid()
      ensures clock == old(clock) + dt && tasks == old(tasks) && nextId == old(nextId)
    {
      clock := clock + dt;
    }

    /** `GET /projects/:projectId/tasks`: exactly that project's tasks, newest first. */
    function List(projectId: string): (reply: Reply<seq<Task>>)
      reads this
      requires Valid()
      ensures castId(projectId).None? ==> reply == InvalidId()
      ensures castId(projectId).Some? ==>
        && reply.Success? && reply.status == OK
        && (forall t :: t in reply.value <==> t in tasks && t.projectId == castId(projectId).value)
        && multiset(reply.value) == multiset(Filter(tasks, OfProject(castId(projectId).value)))
        && |reply.value| <= |tasks|
        && DescendingBy(reply.value, CreatedAt)
    {
      match castId(projectId)
      case None => InvalidId()
      case Some(pid) => Success(OK, NewestFirst(tasks, pid))
    }

    /** `Task.create`'s write: the new document joins the collection and the next id moves on. */
    method Insert(t: Task)
      requires Valid()
      requires t.id == nextId && TaskModel.Valid(t) && t.createdAt == clock == t.updatedAt
      modifies this
      ensures Valid()
      ensures tasks == old(tasks) + [t] && nextId == old(nextId) + 1 && clock == old(clock)
    {
      TableOkAppend(tasks, nextId, clock, t);
      tasks := tasks + [t];
      nextId := nextId + 1;
    }

    /** `POST /projects/:projectId/tasks`: the path id must cast; the body, with the
        path's project id, must pass the create schema; the stored task is the model's
        document built from the parsed fields (an absent or null due date stored as null). */
    method Create(projectId: string, body: Payload) returns (reply: Reply<Task>)
      requires Valid()
      modifies this
      ensures Valid()
      ensures clock == old(clock)
      ensures castId(projectId).None? ==> reply == InvalidId()
      ensures castId(projectId).Some? && TV.ParseCreateTask(Object(CreateInput(body, projectId)), isDateTime).Err? ==>
                reply == Invalid(TV.ParseCreateTask(Object(CreateInput(body, projectId)), isDateTime).error)
      ensures reply.Success? <==>
                castId(projectId).Some? && TV.ParseCreateTask(Object(CreateInput(body, projectId)), isDateTime).Ok?
      ensures reply.Failure? ==> reply.status == BadRequest && tasks == old(tasks) && nextId == old(nextId)
      ensures reply.Success? ==>
        var input := TV.ParseCreateTask(Object(CreateInput(body, projectId)), isDateTime).value;
        && reply.status == Created
        && Build(old(nextId), castId(projectId).value, TV.Fields(input), isDateTime, clock) == Ok(reply.value)
        && reply.value.projectId == castId(projectId).value
        && tasks == old(tasks) + [reply.value] && nextId == old(nextId) + 1
    {
      var pid := castId(projectId);
      if pid.None? {
        reply := InvalidId();
        return;
      }
      var input := Object(CreateInput(body, projectId));
      var parsed := TV.ParseCreateTask(input, isDateTime);
      if parsed.Err? {
        reply := Invalid(parsed.error);
        return;
      }
      TV.AcceptedIsStorable(input, isDateTime);
      var task := Build(nextId, pid.value, TV.Fields(parsed.value), isDateTime, clock).value;
      Insert(task);
      reply := Success(Created, task);
    }

    /** `PUT /tasks/:taskId`: 400 for an id that does not cast or a patch the strict
        schema refuses, 404 for a missing task; otherwise only the patched fields of
        that one task change. */
    method Update(taskId: string, body: Payload) returns (reply: Reply<Task>)
      requires Valid()
      modifies this
      ensures Valid()
      ensures clock == old(clock) && nextId == old(nextId)
      ensures castId(taskId).None? ==> reply == InvalidId()
      ensures castId(taskId).Some? && TV.ParseUpdateTask(body, isDateTime).Err? ==>
                reply == Invalid(TV.ParseUpdateTask(body, isDateTime).error)
      ensures castId(taskId).Some? && TV.ParseUpdateTask(body, isDateTime).Ok? && Find(old(tasks), castId(taskId).value).None? ==>
                reply == Missing()
      ensures reply.Failure? ==> tasks == old(tasks)
      ensures reply.Success? ==>
        && castId(taskId).Some? && TV.ParseUpdateTask(body, isDateTime).Ok? && Find(old(tasks), castId(taskId).value).Some?
        && var i := Find(old(tasks), castId(taskId).value).value;
           && tasks == old(tasks)[i := ApplyPatch(old(tasks)[i], TV.ParseUpdateTask(body, isDateTime).value, clock)]
           && reply == Success(OK, tasks[i])
    {
      var id := castId(taskId);
      if id.None? {
        reply := InvalidId();
        return;
      }
      var parsed := TV.ParseUpdateTask(body, isDateTime);
      if parsed.Err? {
        reply := Invalid(parsed.error);
        return;
      }
      var found := Find(tasks, id.value);
      if found.None? {
        reply := Missing();
        return;
      }
      var i := found.value;
      var updated := ApplyPatch(tasks[i], parsed.value, clock);
      TableOkUpdate(tasks, nextId, clock, i, updated);
      tasks := tasks[i := updated];
      reply := Success(OK, updated);
    }

    /** `DELETE /tasks/:taskId`: 400 for an id that does not cast, 404 for a missing
        task; otherwise that task is gone and every other task stays, in order. */
    method Delete(taskId: string) returns (reply: Reply<bool>)
      requires Valid()
      modifies this
      ensures Valid()
      ensures clock == old(clock) && nextId == old(nextId)
      ensures castId(taskId).None? ==> reply == InvalidId()
      ensures castId(taskId).Some? && Find(old(tasks), castId(taskId).value).None? ==> reply == Missing()
      ensures reply.Failure? ==> tasks == old(tasks)
      ensures reply.Success? ==>
        && reply == Success(OK, true)
        && castId(taskId).Some? && Find(old(tasks), castId(taskId).value).Some?
        && (var i := Find(old(tasks), castId(taskId).value).value;
            tasks == old(tasks)[..i] + old(tasks)[i + 1..])
        && forall t :: t in tasks ==> t.id != castId(taskId).value
    {
      var id := castId(taskId);
      if id.None? {
        reply := InvalidId();
        return;
      }
      var found := Find(tasks, id.value);
      if found.None? {
        reply := Missing();
        return;
      }
      var i := found.value;
      TableOkRemove(tasks, nextId, clock, i);
      tasks := tasks[..i] + tasks[i + 1..];
      reply := Success(OK, true);
    }

    /** The tasks `GET /stats` counts: that project's when the query names a valid
        project id, all of them otherwise. */
    function Scoped(query: Option<string>): (ts: seq<Task>)
      reads this
      ensures |ts| <= |tasks|
      ensures query.None? || query.value == "" || castId(query.value).None? ==> ts == tasks
      ensures query.Some? && query.value != "" && castId(query.value).Some? ==>
                forall t :: t in ts <==> t in tasks && t.projectId == castId(query.value).value
    {
      if query.Some? && query.value != "" && castId(query.value).Some? then
        Filter(tasks, OfProject(castId(query.value).value))
      else tasks
    }

    /** `GET /stats`: the counts over the project's tasks when the query names a valid
        project id, over all tasks otherwise; the scope says `project` whenever a
        non-empty project id was given, valid or not. */
    function Stats(query: Option<string>): (r: TaskStats)
      reads this
      ensures r.todo + r.doing + r.done == r.tasks <= |tasks|
      ensures r.scope == if query.Some? && query.value != "" then "project" else "all"
      ensures query.None? || query.value == "" || castId(query.value).None? ==> r.tasks == |tasks|
      ensures query.Some? && query.value != "" && castId(query.value).Some? ==>
                r.tasks == Count(tasks, OfProject(castId(query.value).value))
      ensures var ts := Scoped(query);
              r.todo == CountStatus(ts, Todo) && r.doing == CountStatus(ts, Doing) && r.done == CountStatus(ts, Done)
    {
      var ts := Scoped(query);
      StatusCountsSum(ts);
      TaskStats(|ts|, CountStatus(ts, Todo), CountStatus(ts, Doing), CountStatus(ts, Done),
                if query.Some? && query.value != "" then "project" else "all")
    }
  }
}

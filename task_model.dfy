/** The stored task: a project id, a required title of at most 120 characters, an
    optional description of at most 600, a status and a priority from fixed lists
    with defaults `todo` and `medium`, a due date defaulting to null, an assignee
    defaulting to "", and creation/update timestamps. */
module TaskModel {
  import opened Wrappers
  import opened Json
  import Seqs

  /** A database object id. */
  type ObjectId = nat

  const TitleMax := 120
  const DescriptionMax := 600

  datatype Status = Todo | Doing | Done
  datatype Priority = Low | Medium | High

  const DefaultStatus := Todo
  const DefaultPriority := Medium

  function StatusName(s: Status): string {
    match s
    case Todo => "todo"
    case Doing => "doing"
    case Done => "done"
  }

  /** The status enum on a string. */
  function ParseStatus(s: string): (r: Option<Status>)
    ensures r.Some? <==> s in {"todo", "doing", "done"}
    ensures r.Some? ==> StatusName(r.value) == s
  {
    if s == "todo" then Some(Todo) else if s == "doing" then Some(Doing) else if s == "done" then Some(Done) else None
  }

  function PriorityName(p: Priority): string {
    match p
    case Low => "low"
    case Medium => "medium"
    case High => "high"
  }

  /** The priority enum on a string. */
  function ParsePriority(s: string): (r: Option<Priority>)
    ensures r.Some? <==> s in {"low", "medium", "high"}
    ensures r.Some? ==> PriorityName(r.value) == s
  {
    if s == "low" then Some(Low) else if s == "medium" then Some(Medium) else if s == "high" then Some(High) else None
  }

  lemma EnumNamesRoundTrip(s: Status, p: Priority)
    ensures ParseStatus(StatusName(s)) == Some(s)
    ensures ParsePriority(PriorityName(p)) == Some(p)
  {
  }

  datatype Task = Task(
    id: ObjectId, projectId: ObjectId, title: string, description: Option<string>,
    status: Status, priority: Priority, dueDate: Option<string>, assignee: string,
    createdAt: int, updatedAt: int)

  predicate TitleOk(title: string) {
    title != "" && |title| <= TitleMax
  }

  predicate DescriptionOk(d: Option<string>) {
    d.None? || |d.value| <= DescriptionMax
  }

  /** What every stored task satisfies. */
  predicate Valid(t: Task) {
    TitleOk(t.title) && DescriptionOk(t.description) && t.createdAt <= t.updatedAt
  }

  /** The values handed to the model on creation; `None` is an unset path. */
  datatype TaskFields = TaskFields(
    title: Option<string>, description: Option<string>, status: Option<string>,
    priority: Option<string>, dueDate: Option<string>, assignee: string)

  function FieldChecks(f: TaskFields, castDate: string -> bool): seq<Check> {
    [ Check("title", f.title.Some? && TitleOk(f.title.value)),
      Check("description", DescriptionOk(f.description)),
      Check("status", f.status.None? || ParseStatus(f.status.value).Some?),
      Check("priority", f.priority.None? || ParsePriority(f.priority.value).Some?),
      Check("dueDate", f.dueDate.None? || castDate(f.dueDate.value)) ]
  }

  /** Every check of `FieldChecks` passes. */
  predicate FieldsOk(f: TaskFields, castDate: string -> bool) {
    && f.title.Some? && TitleOk(f.title.value)
    && DescriptionOk(f.description)
    && (f.status.None? || ParseStatus(f.status.value).Some?)
    && (f.priority.None? || ParsePriority(f.priority.value).Some?)
    && (f.dueDate.None? || castDate(f.dueDate.value))
  }

  /** Creating a task document: the schema's validators, its defaults, and both
      timestamps set to the current time. `castDate` says which strings cast to a date. */
  function Build(id: ObjectId, projectId: ObjectId, f: TaskFields, castDate: string -> bool, now: int): (r: Result<Task, seq<string>>)
    ensures r.Ok? <==> FieldsOk(f, castDate)
    ensures r.Err? ==> r.error != []
    ensures r.Ok? ==> Valid(r.value)
    ensures r.Ok? ==>
      && r.value.id == id && r.value.projectId == projectId && Some(r.value.title) == f.title
      && r.value.description == f.description && r.value.dueDate == f.dueDate && r.value.assignee == f.assignee
      && r.value.status == (if f.status.None? then DefaultStatus else ParseStatus(f.status.value).value)
      && r.value.priority == (if f.priority.None? then DefaultPriority else ParsePriority(f.priority.value).value)
      && r.value.createdAt == now && r.value.updatedAt == now
  {
    var checks := FieldChecks(f, castDate);
    var issues := Failing(checks);
    if issues == [] then
      assert checks[0].ok && checks[1].ok && checks[2].ok && checks[3].ok && checks[4].ok;
      var status := if f.status.None? then DefaultStatus else ParseStatus(f.status.value).value;
      var priority := if f.priority.None? then DefaultPriority else ParsePriority(f.priority.value).value;
      Ok(Task(id, projectId, f.title.value, f.description, status, priority, f.dueDate, f.assignee, now, now))
    else
      assert !checks[0].ok || !checks[1].ok || !checks[2].ok || !checks[3].ok || !checks[4].ok;
      Err(issues)
  }

  /** A task created with nothing but a title gets every default. */
  lemma DefaultsApplied(id: ObjectId, projectId: ObjectId, title: string, castDate: string -> bool, now: int)
    requires TitleOk(title)
    ensures var r := Build(id, projectId, TaskFields(Some(title), None, None, None, None, ""), castDate, now);
            r.Ok? && r.value.status == Todo && r.value.priority == Medium && r.value.dueDate == None
            && r.value.assignee == "" && r.value.createdAt == now == r.value.updatedAt
  {
    var f := TaskFields(Some(title), None, None, None, None, "");
    assert FieldsOk(f, castDate);
  }

  function CountStatus(ts: seq<Task>, s: Status): nat {
    Seqs.Count(ts, (t: Task) => t.status == s)
  }

  /** Every task has exactly one of the three statuses, so the per-status counts add up. */
  lemma StatusCountsSum(ts: seq<Task>)
    ensures CountStatus(ts, Todo) + CountStatus(ts, Doing) + CountStatus(ts, Done) == |ts|
  {
    Seqs.CountPartition(ts, (t: Task) => t.status == Todo, (t: Task) => t.status == Doing, (t: Task) => t.status == Done);
  }
}

/** The task schemas: creation (a project id, a title of 1..120 characters, optional
    bounded description and assignee defaulting to "", optional status and priority
    from their lists, and a due date that is absent, null or a datetime string) and
    the strict update schema, where every field is optional and any other key is refused. */
module TaskValidators {
  import opened Wrappers
  import opened Json
  import opened TaskModel

  const AssigneeMax := 120

  /** `dueDate` as the schema sees it: absent, null, or a datetime string. */
  datatype DueInput = NoDue | NullDue | DueAt(iso: string)

  datatype CreateTask = CreateTask(
    projectId: string, title: string, description: string, status: Option<Status>,
    priority: Option<Priority>, dueDate: DueInput, assignee: string)

  predicate StatusOk(b: Body) {
    "status" !in b || (b["status"].Str? && ParseStatus(b["status"].s).Some?)
  }

  predicate PriorityOk(b: Body) {
    "priority" !in b || (b["priority"].Str? && ParsePriority(b["priority"].s).Some?)
  }

  /** `z.string().datetime().nullable().optional()`. */
  predicate DueOk(b: Body, isDateTime: string -> bool) {
    "dueDate" !in b || b["dueDate"].Null? || (b["dueDate"].Str? && isDateTime(b["dueDate"].s))
  }

  function Due(b: Body): DueInput
    requires "dueDate" in b ==> b["dueDate"].Null? || b["dueDate"].Str?
  {
    if "dueDate" !in b then NoDue else if b["dueDate"].Null? then NullDue else DueAt(b["dueDate"].s)
  }

  function OptStatus(b: Body): Option<Status>
    requires StatusOk(b)
  {
    if "status" in b then ParseStatus(b["status"].s) else None
  }

  function OptPriority(b: Body): Option<Priority>
    requires PriorityOk(b)
  {
    if "priority" in b then ParsePriority(b["priority"].s) else None
  }

  predicate CreateOk(b: Body, isDateTime: string -> bool) {
    && "projectId" in b && b["projectId"].Str? && b["projectId"].s != ""
    && StrBetween(b, "title", 1, TitleMax)
    && OptStrAtMost(b, "description", DescriptionMax)
    && StatusOk(b) && PriorityOk(b) && DueOk(b, isDateTime)
    && OptStrAtMost(b, "assignee", AssigneeMax)
  }

  /** `createTaskSchema.parse`. */
  function ParseCreateTask(p: Payload, isDateTime: string -> bool): (r: Result<CreateTask, seq<string>>)
    ensures r.Ok? <==> p.Object? && CreateOk(p.fields, isDateTime)
    ensures r.Err? ==> r.error != []
    ensures r.Ok? ==>
      var b := p.fields;
      && r.value.projectId == b["projectId"].s && r.value.title == b["title"].s
      && 1 <= |r.value.title| <= TitleMax && |r.value.description| <= DescriptionMax && |r.value.assignee| <= AssigneeMax
      && r.value.description == (if "description" in b then b["description"].s else "")
      && r.value.assignee == (if "assignee" in b then b["assignee"].s else "")
      && (r.value.status.Some? <==> "status" in b) && (r.value.status.Some? ==> StatusName(r.value.status.value) == b["status"].s)
      && (r.value.priority.Some? <==> "priority" in b) && (r.value.priority.Some? ==> PriorityName(r.value.priority.value) == b["priority"].s)
      && r.value.dueDate == Due(b)
      && (r.value.dueDate.DueAt? ==> isDateTime(r.value.dueDate.iso))
  {
    match p
    case NotObject => Err([""])
    case Object(b) =>
      var checks := [
        Check("projectId", "projectId" in b && b["projectId"].Str? && b["projectId"].s != ""),
        Check("title", StrBetween(b, "title", 1, TitleMax)),
        Check("description", OptStrAtMost(b, "description", DescriptionMax)),
        Check("status", StatusOk(b)),
        Check("priority", PriorityOk(b)),
        Check("dueDate", DueOk(b, isDateTime)),
        Check("assignee", OptStrAtMost(b, "assignee", AssigneeMax)) ];
      var issues := Failing(checks);
      if issues == [] then
        assert checks[0].ok && checks[1].ok && checks[2].ok && checks[3].ok && checks[4].ok && checks[5].ok && checks[6].ok;
        Ok(CreateTask(b["projectId"].s, b["title"].s, StrOr(b, "description", ""), OptStatus(b), OptPriority(b),
                      Due(b), StrOr(b, "assignee", "")))
      else
        assert !checks[0].ok || !checks[1].ok || !checks[2].ok || !checks[3].ok || !checks[4].ok || !checks[5].ok || !checks[6].ok;
        Err(issues)
  }

  /** The keys the strict update schema knows. */
  const UpdateKeys: set<string> := {"title", "description", "status", "priority", "dueDate", "assignee"}

  /** A validated update: `None` / `NoDue` leave a field as it is. */
  datatype TaskPatch = TaskPatch(
    title: Option<string>, description: Option<string>, status: Option<Status>,
    priority: Option<Priority>, dueDate: DueInput, assignee: Option<string>)

  const EmptyPatch := TaskPatch(None, None, None, None, NoDue, None)

  predicate UpdateOk(b: Body, isDateTime: string -> bool) {
    && b.Keys <= UpdateKeys
    && ("title" in b ==> StrBetween(b, "title", 1, TitleMax))
    && OptStrAtMost(b, "description", DescriptionMax)
    && StatusOk(b) && PriorityOk(b) && DueOk(b, isDateTime)
    && OptStrAtMost(b, "assignee", AssigneeMax)
  }

  /** The bounds a validated patch meets. */
  predicate PatchOk(p: TaskPatch) {
    && (p.title.Some? ==> TitleOk(p.title.value))
    && (p.description.Some? ==> |p.description.value| <= DescriptionMax)
    && (p.assignee.Some? ==> |p.assignee.value| <= AssigneeMax)
  }

  function OptStr(b: Body, key: string): Option<string>
    requires key in b ==> b[key].Str?
  {
    if key in b then Some(b[key].s) else None
  }

  /** `updateTaskSchema.parse`: the same bounds, every field optional, unknown keys refused. */
  function ParseUpdateTask(p: Payload, isDateTime: string -> bool): (r: Result<TaskPatch, seq<string>>)
    ensures r.Ok? <==> p.Object? && UpdateOk(p.fields, isDateTime)
    ensures r.Err? ==> r.error != []
    ensures p.Object? && !(p.fields.Keys <= UpdateKeys) ==> r.Err? && "" in r.error
    ensures r.Ok? ==> PatchOk(r.value)
    ensures r.Ok? ==>
      var b := p.fields;
      && r.value.title == OptStr(b, "title") && r.value.description == OptStr(b, "description")
      && r.value.assignee == OptStr(b, "assignee") && r.value.dueDate == Due(b)
      && (r.value.status.Some? <==> "status" in b) && (r.value.status.Some? ==> StatusName(r.value.status.value) == b["status"].s)
      && (r.value.priority.Some? <==> "priority" in b) && (r.value.priority.Some? ==> PriorityName(r.value.priority.value) == b["priority"].s)
  {
    match p
    case NotObject => Err([""])
    case Object(b) =>
      var checks := [
        Check("title", "title" in b ==> StrBetween(b, "title", 1, TitleMax)),
        Check("description", OptStrAtMost(b, "description", DescriptionMax)),
        Check("status", StatusOk(b)),
        Check("priority", PriorityOk(b)),
        Check("dueDate", DueOk(b, isDateTime)),
        Check("assignee", OptStrAtMost(b, "assignee", AssigneeMax)),
        Check("", b.Keys <= UpdateKeys) ];
      var issues := Failing(checks);
      if issues == [] then
        assert checks[0].ok && checks[1].ok && checks[2].ok && checks[3].ok && checks[4].ok && checks[5].ok && checks[6].ok;
        Ok(TaskPatch(OptStr(b, "title"), OptStr(b, "description"), OptStatus(b), OptPriority(b), Due(b), OptStr(b, "assignee")))
      else
        assert !checks[0].ok || !checks[1].ok || !checks[2].ok || !checks[3].ok || !checks[4].ok || !checks[5].ok || !checks[6].ok;
        assert !(b.Keys <= UpdateKeys) ==> "" in issues by { assert checks[6].path == ""; }
        Err(issues)
  }

  /** `{}` is a valid update that changes nothing. */
  lemma EmptyUpdateIsValid(isDateTime: string -> bool)
    ensures ParseUpdateTask(Object(map[]), isDateTime) == Ok(EmptyPatch)
  {
  }

  /** The document handed to the model: an absent due date is left unset and a null
      one stays null, so both are stored as null. */
  function Fields(c: CreateTask): TaskFields {
    TaskFields(
      Some(c.title), Some(c.description),
      if c.status.Some? then Some(StatusName(c.status.value)) else None,
      if c.priority.Some? then Some(PriorityName(c.priority.value)) else None,
      if c.dueDate.DueAt? then Some(c.dueDate.iso) else None,
      c.assignee)
  }

  /** A created task's fields, after the handler's due-date normalisation, always
      pass the model's validators when dates are cast as the schema checks them. */
  lemma AcceptedIsStorable(p: Payload, isDateTime: string -> bool)
    requires ParseCreateTask(p, isDateTime).Ok?
    ensures FieldsOk(Fields(ParseCreateTask(p, isDateTime).value), isDateTime)
  {
    var c := ParseCreateTask(p, isDateTime).value;
    if c.status.Some? {
      EnumNamesRoundTrip(c.status.value, Low);
    }
    if c.priority.Some? {
      EnumNamesRoundTrip(Todo, c.priority.value);
    }
  }
}

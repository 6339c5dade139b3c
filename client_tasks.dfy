/** The project page's task logic: the task form validator, the status filter, the
    three sort orders (due date ascending or descending with sentinels for missing
    dates, and priority rank), and the quick status change applied to the list. */
module ClientTasks {
  import opened Wrappers
  import opened Seqs
  import opened Text
  import opened Sorting
  import TM = TaskModel

  const TitleMax := 120
  const DescriptionMax := 600

  const Statuses: seq<string> := ["todo", "doing", "done"]
  const Priorities: seq<string> := ["low", "medium", "high"]

  /** The keys of the error object. */
  datatype Field = Title | Description | DueDate | Status | Priority

  /** The errors the form can show; `Wording` gives each one's text. */
  datatype Problem = TitleRequired | TitleTooLong | DescriptionTooLong | BadDate | BadStatus | BadPriority

  function Key(f: Field): string {
    match f
    case Title => "title"
    case Description => "description"
    case DueDate => "dueDate"
    case Status => "status"
    case Priority => "priority"
  }

  function Wording(p: Problem): string {
    match p
    case TitleRequired => "El t\U{ED}tulo es obligatorio."
    case TitleTooLong => "M\U{E1}ximo 120 caracteres."
    case DescriptionTooLong => "M\U{E1}ximo 600 caracteres."
    case BadDate => "Fecha inv\U{E1}lida."
    case BadStatus => "Estado inv\U{E1}lido."
    case BadPriority => "Prioridad inv\U{E1}lida."
  }

  /** `new Date('9999-12-31').getTime()`, the date a task without one sorts as when ascending. */
  const LatestDate := 253402214400000
  /** `new Date('0000-01-01').getTime()`, the date a task without one sorts as when descending. */
  const EarliestDate := -62167219200000

  /** The task form's fields, as the inputs hold them. */
  datatype TaskForm = TaskForm(title: string, description: string, status: string, priority: string, dueDate: string, assignee: string)

  predicate TitleProblem(title: string) {
    Trim(title) == "" || |Trim(title)| > TitleMax
  }

  predicate DateProblem(dueDate: string, parsesAsDate: string -> bool) {
    dueDate != "" && !parsesAsDate(dueDate)
  }

  /** A form that raises no error. */
  predicate FormOk(v: TaskForm, parsesAsDate: string -> bool) {
    && !TitleProblem(v.title)
    && |v.description| <= DescriptionMax
    && !DateProblem(v.dueDate, parsesAsDate)
    && (v.status == "" || v.status in Statuses)
    && (v.priority == "" || v.priority in Priorities)
  }

  /** `validateTask`: one message per field in trouble, the later title check winning
      over the earlier one. `parsesAsDate` says which strings `new Date` accepts. */
  method ValidateTask(v: TaskForm, parsesAsDate: string -> bool) returns (errs: map<Field, Problem>)
    ensures Title in errs <==> TitleProblem(v.title)
    ensures Title in errs ==> errs[Title] == if |Trim(v.title)| > TitleMax then TitleTooLong else TitleRequired
    ensures Description in errs <==> |v.description| > DescriptionMax
    ensures Description in errs ==> errs[Description] == DescriptionTooLong
    ensures DueDate in errs <==> DateProblem(v.dueDate, parsesAsDate)
    ensures DueDate in errs ==> errs[DueDate] == BadDate
    ensures Status in errs <==> v.status != "" && v.status !in Statuses
    ensures Status in errs ==> errs[Status] == BadStatus
    ensures Priority in errs <==> v.priority != "" && v.priority !in Priorities
    ensures Priority in errs ==> errs[Priority] == BadPriority
    ensures errs == map[] <==> FormOk(v, parsesAsDate)
  {
    var title := Trim(v.title);
    errs := map[];
    if title == "" {
      errs := errs[Title := TitleRequired];
    }
    if |title| > TitleMax {
      errs := errs[Title := TitleTooLong];
    }
    if |v.description| > DescriptionMax {
      errs := errs[Description := DescriptionTooLong];
    }
    if v.dueDate != "" {
      if !parsesAsDate(v.dueDate) {
        errs := errs[DueDate := BadDate];
      }
    }
    if v.status != "" && v.status !in Statuses {
      errs := errs[Status := BadStatus];
    }
    if v.priority != "" && v.priority !in Priorities {
      errs := errs[Priority := BadPriority];
    }
    assert !FormOk(v, parsesAsDate) ==>
      (Title in errs || Description in errs || DueDate in errs || Status in errs || Priority in errs);
  }

  /** The form's status and priority, when it passes, are names the task schema accepts. */
  lemma FormEnumsAccepted(v: TaskForm, parsesAsDate: string -> bool)
    requires FormOk(v, parsesAsDate)
    ensures v.status != "" ==> TM.ParseStatus(v.status).Some?
    ensures v.priority != "" ==> TM.ParsePriority(v.priority).Some?
  {
  }

  /** A task as the page holds it; `due` is the due date's time, when it has one. */
  datatype ClientTask = ClientTask(id: string, title: string, status: string, priority: string, due: Option<int>)

  datatype SortOrder = DueAsc | DueDesc | ByPriority | Unsorted

  function ParseOrder(s: string): SortOrder {
    if s == "dueAsc" then DueAsc else if s == "dueDesc" then DueDesc else if s == "priority" then ByPriority else Unsorted
  }

  /** `{ high:0, medium:1, low:2 }[priority] ?? 9`. */
  function Rank(priority: string): (r: int)
    ensures r == 0 <==> priority == "high"
    ensures r == 1 <==> priority == "medium"
    ensures r == 2 <==> priority == "low"
    ensures r == 9 <==> priority !in {"high", "medium", "low"}
  {
    if priority == "high" then 0 else if priority == "medium" then 1 else if priority == "low" then 2 else 9
  }

  /** The number the comparator of each order subtracts; descending compares negated dates. */
  function SortKey(order: SortOrder, t: ClientTask): int {
    match order
    case DueAsc => t.due.GetOr(LatestDate)
    case DueDesc => -t.due.GetOr(EarliestDate)
    case ByPriority => Rank(t.priority)
    case Unsorted => 0
  }

  function KeyOf(order: SortOrder): ClientTask -> int {
    (t: ClientTask) => SortKey(order, t)
  }

  function HasStatus(status: string): ClientTask -> bool {
    (t: ClientTask) => t.status == status
  }

  /** The status filter: `all` keeps everything, any other value exactly the tasks with that status. */
  function ByStatus(tasks: seq<ClientTask>, filterStatus: string): (r: seq<ClientTask>)
    ensures forall t :: t in r <==> t in tasks && (filterStatus == "all" || t.status == filterStatus)
    ensures filterStatus == "all" ==> r == tasks
    ensures filterStatus != "all" ==> r == Filter(tasks, HasStatus(filterStatus))
  {
    if filterStatus == "all" then tasks else Filter(tasks, HasStatus(filterStatus))
  }

  /** What the table shows: the filtered tasks in the chosen order. */
  function View(tasks: seq<ClientTask>, filterStatus: string, sortBy: string): seq<ClientTask> {
    var arr := ByStatus(tasks, filterStatus);
    if ParseOrder(sortBy).Unsorted? then arr else SortByKey(arr, KeyOf(ParseOrder(sortBy)))
  }

  /** `filtered`: copy, filter, then sort the copy in place. */
  method Filtered(tasks: seq<ClientTask>, filterStatus: string, sortBy: string) returns (r: seq<ClientTask>)
    ensures r == View(tasks, filterStatus, sortBy)
  {
    var kept := ByStatus(tasks, filterStatus);
    var arr := new ClientTask[|kept|](i requires 0 <= i < |kept| => kept[i]);
    assert arr[..] == kept;
    var order := ParseOrder(sortBy);
    if !order.Unsorted? {
      SortInPlace(arr, KeyOf(order));
    }
    r := arr[..];
  }

  /** The view holds exactly the filtered tasks, each as often as in the list. */
  lemma ViewIsFilteredPermutation(tasks: seq<ClientTask>, filterStatus: string, sortBy: string)
    ensures multiset(View(tasks, filterStatus, sortBy)) == multiset(ByStatus(tasks, filterStatus))
    ensures forall t :: t in View(tasks, filterStatus, sortBy) <==>
              t in tasks && (filterStatus == "all" || t.status == filterStatus)
  {
    var v := View(tasks, filterStatus, sortBy);
    assert forall t :: t in v <==> t in multiset(v);
  }

  /** `dueAsc`: due dates never decrease, and tasks without one come after every task
      dated before 9999-12-31. */
  lemma DueAscOrder(tasks: seq<ClientTask>, filterStatus: string)
    ensures var v := View(tasks, filterStatus, "dueAsc");
      && (forall i, j :: 0 <= i < j < |v| && v[i].due.Some? && v[j].due.Some? ==> v[i].due.value <= v[j].due.value)
      && (forall i, j :: 0 <= i < j < |v| && v[i].due.None? && v[j].due.Some? ==> v[j].due.value >= LatestDate)
  {
    SortByKeySorted(ByStatus(tasks, filterStatus), KeyOf(DueAsc));
  }

  /** `dueDesc`: due dates never increase, and tasks without one come after every task
      dated after 0000-01-01. */
  lemma DueDescOrder(tasks: seq<ClientTask>, filterStatus: string)
    ensures var v := View(tasks, filterStatus, "dueDesc");
      && (forall i, j :: 0 <= i < j < |v| && v[i].due.Some? && v[j].due.Some? ==> v[i].due.value >= v[j].due.value)
      && (forall i, j :: 0 <= i < j < |v| && v[i].due.None? && v[j].due.Some? ==> v[j].due.value <= EarliestDate)
  {
    SortByKeySorted(ByStatus(tasks, filterStatus), KeyOf(DueDesc));
  }

  /** `priority`: high before medium before low before anything else. */
  lemma PriorityOrder(tasks: seq<ClientTask>, filterStatus: string)
    ensures var v := View(tasks, filterStatus, "priority");
      forall i, j :: 0 <= i < j < |v| ==> Rank(v[i].priority) <= Rank(v[j].priority)
  {
    SortByKeySorted(ByStatus(tasks, filterStatus), KeyOf(ByPriority));
  }

  /** Tasks that tie under the order keep the list's relative order. */
  lemma TiesKeepListOrder(tasks: seq<ClientTask>, filterStatus: string, sortBy: string, c: int)
    requires !ParseOrder(sortBy).Unsorted?
    ensures Filter(View(tasks, filterStatus, sortBy), HasKey(KeyOf(ParseOrder(sortBy)), c))
            == Filter(ByStatus(tasks, filterStatus), HasKey(KeyOf(ParseOrder(sortBy)), c))
  {
    SortByKeyStable(ByStatus(tasks, filterStatus), KeyOf(ParseOrder(sortBy)), c);
  }

  /** `quickStatus`'s list update: the task with that id gets the new status, every
      other task stays as it was. */
  function QuickStatus(tasks: seq<ClientTask>, id: string, next: string): (r: seq<ClientTask>)
    ensures |r| == |tasks|
    ensures forall i :: 0 <= i < |r| && tasks[i].id != id ==> r[i] == tasks[i]
    ensures forall i :: 0 <= i < |r| && tasks[i].id == id ==> r[i] == tasks[i].(status := next)
  {
    seq(|tasks|, i requires 0 <= i < |tasks| => if tasks[i].id == id then tasks[i].(status := next) else tasks[i])
  }

  /** Applying the same quick change twice is the same as once. */
  lemma QuickStatusIdempotent(tasks: seq<ClientTask>, id: string, next: string)
    ensures QuickStatus(QuickStatus(tasks, id, next), id, next) == QuickStatus(tasks, id, next)
  {
  }

  /** After the change, filtering by the new status shows the changed task. */
  lemma QuickStatusShowsUnderNewStatus(tasks: seq<ClientTask>, i: nat, next: string)
    requires i < |tasks|
    ensures tasks[i].(status := next) in ByStatus(QuickStatus(tasks, tasks[i].id, next), next)
  {
    assert QuickStatus(tasks, tasks[i].id, next)[i] == tasks[i].(status := next);
  }
}

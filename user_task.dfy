/** The "My Tasks" page: loading the task list for a status filter, the four
    status tabs built from the store's summary, and the defaults each task card
    receives. */
module UserTask {
  import opened Js

  datatype TodoItem = TodoItem(text: string, completed: bool)

  /** A task of the list, as the store returns it; the fields a card defaults
      may be missing. */
  datatype TaskRecord = TaskRecord(
    id: string,
    title: string,
    attachments: Option<seq<string>>,
    completedTodoCount: Option<int>,
    todoCheckList: Option<seq<TodoItem>>)

  /** The store's per-status counts; any of them may be missing. */
  datatype StatusSummary = StatusSummary(
    all: Option<int>,
    pendingTasks: Option<int>,
    inProgressTasks: Option<int>,
    completedTasks: Option<int>)

  datatype TaskListBody = TaskListBody(tasks: Option<seq<TaskRecord>>, statusSummary: Option<StatusSummary>)

  /** Outcome of the list request: a response whose `data` may be absent, or a
      thrown error. */
  datatype FetchOutcome = Fetched(data: Option<TaskListBody>) | FetchFailed

  /** A status tab; `name` is the source's `label` (a keyword here). */
  datatype Tab = Tab(name: string, count: int)

  /** The values a task card is given for the optional fields. */
  datatype CardDefaults = CardDefaults(attachmentCount: nat, completedTodoCount: int, todoCheckList: seq<TodoItem>)

  const TabLabels: seq<string> := ["All", "Pending", "In Progress", "Completed"]

  /** The `status` query parameter for a filter: empty for "All", the filter
      itself otherwise. */
  function StatusParam(filter: string): (r: string)
    ensures filter == "All" ==> r == ""
    ensures filter != "All" ==> r == filter
  {
    if filter == "All" then "" else filter
  }

  /** The four tab filters issue four different queries, and only "All" issues
      the unconstrained one. */
  lemma StatusParamSeparatesTabs(i: int, j: int)
    requires 0 <= i < |TabLabels| && 0 <= j < |TabLabels|
    ensures StatusParam(TabLabels[i]) == "" <==> i == 0
    ensures StatusParam(TabLabels[i]) == StatusParam(TabLabels[j]) ==> i == j
  {
  }

  /** `n || 0` for a possibly-missing count. */
  function CountOrZero(n: Option<int>): (r: int)
    ensures n.Some? ==> r == n.value
    ensures n.None? ==> r == 0
  {
    if n.Some? && n.value != 0 then n.value else 0
  }

  /** The tab array: All, Pending, In Progress, Completed, each with its summary
      count or 0; a missing summary gives four zeros. */
  function TabsOf(summary: Option<StatusSummary>): (r: seq<Tab>)
    ensures |r| == 4
    ensures forall i :: 0 <= i < 4 ==> r[i].name == TabLabels[i]
    ensures summary.None? ==> forall i :: 0 <= i < 4 ==> r[i].count == 0
    ensures summary.Some? ==>
              && r[0].count == CountOrZero(summary.value.all)
              && r[1].count == CountOrZero(summary.value.pendingTasks)
              && r[2].count == CountOrZero(summary.value.inProgressTasks)
              && r[3].count == CountOrZero(summary.value.completedTasks)
  {
    var s := summary.GetOr(StatusSummary(None, None, None, None));
    [ Tab("All", CountOrZero(s.all)),
      Tab("Pending", CountOrZero(s.pendingTasks)),
      Tab("In Progress", CountOrZero(s.inProgressTasks)),
      Tab("Completed", CountOrZero(s.completedTasks)) ]
  }

  /** The new task list: the response's tasks when there is at least one, and the
      empty list otherwise. */
  function TasksOf(data: Option<TaskListBody>): (r: seq<TaskRecord>)
    ensures data.Some? && data.value.tasks.Some? ==> r == data.value.tasks.value
    ensures data.None? || data.value.tasks.None? ==> r == []
  {
    if data.Some? && data.value.tasks.Some? && |data.value.tasks.value| > 0 then data.value.tasks.value else []
  }

  /** The defaults a card is given: attachment count, completed-todo count and
      checklist fall back to 0, 0 and []. */
  function CardDefaultsOf(t: TaskRecord): (r: CardDefaults)
    ensures r.attachmentCount == (if t.attachments.Some? then |t.attachments.value| else 0)
    ensures r.completedTodoCount == CountOrZero(t.completedTodoCount)
    ensures r.todoCheckList == (if t.todoCheckList.Some? then t.todoCheckList.value else [])
  {
    CardDefaults(
      if t.attachments.Some? && |t.attachments.value| != 0 then |t.attachments.value| else 0,
      CountOrZero(t.completedTodoCount),
      t.todoCheckList.GetOr([]))
  }

  class TaskListView {
    var allTasks: seq<TaskRecord>
    var tabs: seq<Tab>
    var filterStatus: string
    var isLoading: bool
    /** The `status` parameters of the list requests issued so far. */
    var requests: seq<string>

    /** The initial state: filter "All", loading, no tasks, no tabs. */
    constructor ()
      ensures filterStatus == "All" && isLoading && allTasks == [] && tabs == [] && requests == []
    {
      filterStatus := "All";
      isLoading := true;
      allTasks := [];
      tabs := [];
      requests := [];
    }

    /** `getAllTasks` up to its `await`: loading is on and the request for the
        current filter is issued; tasks and tabs are untouched. */
    method BeginLoad() returns (status: string)
      modifies this
      ensures isLoading
      ensures status == StatusParam(filterStatus) && requests == old(requests) + [status]
      ensures allTasks == old(allTasks) && tabs == old(tabs) && filterStatus == old(filterStatus)
    {
      isLoading := true;
      status := StatusParam(filterStatus);
      requests := requests + [status];
    }

    /** `getAllTasks` after its `await`: a response replaces the tasks and the
        tabs, a thrown error leaves both as they were; loading is off either way. */
    method FinishLoad(outcome: FetchOutcome)
      modifies this
      ensures !isLoading
      ensures filterStatus == old(filterStatus) && requests == old(requests)
      ensures outcome.Fetched? ==>
                && allTasks == TasksOf(outcome.data)
                && tabs == TabsOf(if outcome.data.Some? then outcome.data.value.statusSummary else None)
      ensures outcome.FetchFailed? ==> allTasks == old(allTasks) && tabs == old(tabs)
    {
      match outcome {
        case Fetched(data) =>
          allTasks := TasksOf(data);
          tabs := TabsOf(if data.Some? then data.value.statusSummary else None);
        case FetchFailed =>
      }
      isLoading := false;
    }

    /** `getAllTasks`: one list request for the current filter; loading is on
        while it is in flight and off afterwards. */
    method GetAllTasks(outcome: FetchOutcome) returns (status: string)
      modifies this
      ensures !isLoading
      ensures status == StatusParam(old(filterStatus)) && requests == old(requests) + [status]
      ensures filterStatus == old(filterStatus)
      ensures outcome.Fetched? ==>
                && allTasks == TasksOf(outcome.data)
                && tabs == TabsOf(if outcome.data.Some? then outcome.data.value.statusSummary else None)
      ensures outcome.FetchFailed? ==> allTasks == old(allTasks) && tabs == old(tabs)
    {
      status := BeginLoad();
      FinishLoad(outcome);
    }
  }
}

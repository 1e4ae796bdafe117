/** The task detail page: loading one task, toggling a checklist item
    optimistically with rollback, and the small mappers its markup uses (status
    colour, attachment link, attachment number). */
module ViewTaskDetails {
  import opened Js

  /** A checklist item as the page holds it: a heap object, shared between the
      task in state and the shallow copy the toggle works on. */
  class ChecklistItem {
    var text: string
    var completed: bool

    constructor (text: string, completed: bool)
      ensures this.text == text && this.completed == completed
    {
      this.text := text;
      this.completed := completed;
    }
  }

  /** The value of one checklist item, as sent over the wire. */
  datatype Todo = Todo(text: string, completed: bool)

  /** A task as the page holds it. `todoCheckList` is None when the field is
      missing or is not an array. */
  datatype Task = Task(
    id: string,
    title: string,
    status: Option<string>,
    attachments: seq<string>,
    todoCheckList: Option<seq<ChecklistItem>>)

  /** What the page records of its requests to the task store. */
  datatype Request =
    | GetTask(taskId: string)
    | PutChecklist(taskId: string, todoCheckList: seq<Todo>)

  /** Outcome of the checklist write: a response with its HTTP status and the
      `task` of its body, if any; or a thrown error (network error, or a status
      the HTTP client rejects). */
  datatype WriteOutcome = Ok(status: int, task: Option<Task>) | Err

  /** Outcome of reading one task: a response whose `data` may be absent, or a
      thrown error. */
  datatype FetchOutcome = Fetched(data: Option<TaskBody>) | FetchFailed
  datatype TaskBody = TaskBody(task: Option<Task>)

  /** Items decoded from JSON are distinct objects. */
  predicate DistinctItems(items: seq<ChecklistItem>) {
    forall i, j :: 0 <= i < j < |items| ==> items[i] != items[j]
  }

  predicate WellFormed(t: Option<Task>) {
    t.Some? && t.value.todoCheckList.Some? ==> DistinctItems(t.value.todoCheckList.value)
  }

  /** The current values of a sequence of items. */
  function Snapshot(items: seq<ChecklistItem>): (r: seq<Todo>)
    reads items
    ensures |r| == |items|
    ensures forall i :: 0 <= i < |items| ==> r[i] == Todo(items[i].text, items[i].completed)
  {
    if items == [] then [] else Snapshot(items[..|items| - 1]) + [Todo(items[|items| - 1].text, items[|items| - 1].completed)]
  }

  /** The checklist with the item at `i` flipped. */
  function Flip(list: seq<Todo>, i: int): (r: seq<Todo>)
    requires 0 <= i < |list|
    ensures |r| == |list|
    ensures r[i].text == list[i].text && r[i].completed == !list[i].completed
    ensures forall j :: 0 <= j < |list| && j != i ==> r[j] == list[j]
  {
    list[i := Todo(list[i].text, !list[i].completed)]
  }

  /** Flipping the same item twice restores the checklist. */
  lemma FlipTwice(list: seq<Todo>, i: int)
    requires 0 <= i < |list|
    ensures Flip(Flip(list, i), i) == list
  {
  }

  /** The guard of the toggle: a task is loaded, its checklist is an array, and
      the array has an item at `todo`. */
  predicate HasItem(task: Option<Task>, todo: int) {
    task.Some? && task.value.todoCheckList.Some? && 0 <= todo < |task.value.todoCheckList.value|
  }

  class TaskDetailsView {
    /** The `id` route parameter. */
    const id: string
    /** The task in state; None while nothing (or nothing usable) has been loaded. */
    var task: Option<Task>
    /** The requests issued so far, in order. */
    var outbox: seq<Request>

    ghost predicate Valid()
      reads this
    {
      WellFormed(task)
    }

    /** The item objects of the task in state. */
    function Items(): set<ChecklistItem>
      reads this
    {
      if task.Some? && task.value.todoCheckList.Some? then
        set it | it in task.value.todoCheckList.value
      else {}
    }

    constructor (id: string)
      ensures Valid() && this.id == id && task == None && outbox == []
    {
      this.id := id;
      task := None;
      outbox := [];
    }

    /** `getTaskDetailsById`: a response with a body replaces the task with the
        body's `task` (possibly nothing); a response without a body or a thrown
        error leaves the task as it was. */
    method GetTaskDetailsById(outcome: FetchOutcome)
      requires Valid()
      requires outcome.Fetched? && outcome.data.Some? ==> WellFormed(outcome.data.value.task)
      modifies this
      ensures Valid()
      ensures outbox == old(outbox) + [GetTask(id)]
      ensures task == (if outcome.Fetched? && outcome.data.Some? then outcome.data.value.task else old(task))
    {
      outbox := outbox + [GetTask(id)];
      match outcome
      case Fetched(data) =>
        if data.Some? {
          task := data.value.task;
        }
      case FetchFailed =>
    }

    /** `updateTodoChecklist`: flips the item at `todo` in place (the item object is
        shared with the task in state), sends the whole checklist, then keeps the
        response's task (or the current one) on status 200 and flips the item back
        otherwise. Without an item at `todo` nothing happens and nothing is sent. */
    method UpdateTodoChecklist(todo: int, outcome: WriteOutcome)
      requires Valid()
      requires outcome.Ok? && outcome.task.Some? ==> WellFormed(outcome.task)
      modifies this, Items()
      ensures Valid()
      ensures !HasItem(old(task), todo) ==>
                task == old(task) && outbox == old(outbox) && unchanged(old(Items()))
      ensures HasItem(old(task), todo) ==>
                var items := old(task).value.todoCheckList.value;
                var before := old(Snapshot(items));
                && outbox == old(outbox) + [PutChecklist(id, Flip(before, todo))]
                && (outcome.Ok? && outcome.status == 200 ==>
                      && task == (if outcome.task.Some? then outcome.task else old(task))
                      && Snapshot(items) == Flip(before, todo))
                && (!(outcome.Ok? && outcome.status == 200) ==>
                      task == old(task) && Snapshot(items) == before)
    {
      if !HasItem(task, todo) {
        return;
      }
      // [...task.todoCheckList]: a new array holding the same item objects
      var todoList := task.value.todoCheckList.value;
      ghost var before := Snapshot(todoList);
      ToggleItem(todoList, todo);
      outbox := outbox + [PutChecklist(id, Snapshot(todoList))];
      match outcome
      case Ok(status, respTask) =>
        if status == 200 {
          task := if respTask.Some? then respTask else task;
        } else {
          ToggleItem(todoList, todo);
          FlipTwice(before, todo);
        }
      case Err =>
        ToggleItem(todoList, todo);
        FlipTwice(before, todo);
    }
  }

  /** `todoList[todo].completed = !todoList[todo].completed`: negates one item in
      place; in a list of distinct items no other item changes. */
  method ToggleItem(items: seq<ChecklistItem>, i: int)
    requires DistinctItems(items) && 0 <= i < |items|
    modifies items[i]
    ensures Snapshot(items) == Flip(old(Snapshot(items)), i)
  {
    var item := items[i];
    item.completed := !item.completed;
    assert forall j :: 0 <= j < |items| && j != i ==> items[j] != item;
  }

  /** `getStatusTagColor`: the tag classes for a task status. */
  function StatusTagColor(status: Option<string>): (r: string)
    ensures r == InProgressTag <==> status == Some("In Progress")
    ensures r == CompletedTag <==> status == Some("Completed")
    ensures r == DefaultTag <==> status != Some("In Progress") && status != Some("Completed")
  {
    if status == Some("In Progress") then InProgressTag
    else if status == Some("Completed") then CompletedTag
    else DefaultTag
  }

  const InProgressTag := "text-cyan-500 bg-cyan-50 border border-cyan-500/10"
  const CompletedTag := "text-lime-500 bg-lime-50 border border-lime-500/10"
  const DefaultTag := "text-violet-500 bg-violet-50 border border-violet-500/10"

  /** `c` equals the lower-case ASCII letter `lower` ignoring case. */
  predicate SameLetter(c: char, lower: char)
    requires 'a' <= lower <= 'z'
  {
    c == lower || c as int == lower as int - 32
  }

  /** The link matches `/^https?:\/\//i`. */
  predicate HasScheme(link: string) {
    && |link| >= 7
    && SameLetter(link[0], 'h') && SameLetter(link[1], 't')
    && SameLetter(link[2], 't') && SameLetter(link[3], 'p')
    && (link[4..7] == "://" || (|link| >= 8 && SameLetter(link[4], 's') && link[5..8] == "://"))
  }

  /** The link `linkClickHandler` opens: unchanged when it already has an http or
      https scheme, and otherwise prefixed with "https://". */
  function NormalizeLink(link: string): (r: string)
    ensures HasScheme(link) ==> r == link
    ensures !HasScheme(link) ==> r == "https://" + link
  {
    if HasScheme(link) then link else "https://" + link
  }

  /** The normalised link always has a scheme, ends with the original link, and
      normalising it again changes nothing. */
  lemma NormalizeLinkIdempotent(link: string)
    ensures HasScheme(NormalizeLink(link))
    ensures |NormalizeLink(link)| >= |link| && NormalizeLink(link)[|NormalizeLink(link)| - |link|..] == link
    ensures NormalizeLink(NormalizeLink(link)) == NormalizeLink(link)
  {
    var r := NormalizeLink(link);
    if !HasScheme(link) {
      assert r[5..8] == "://";
      assert r[|r| - |link|..] == link;
    }
  }

  /** The number shown before an attachment: index + 1, padded to two digits. */
  function AttachmentLabel(index: nat): (r: string)
    ensures AllDigits(r) && |r| >= 2
    ensures DecimalValue(r) == index + 1
    ensures index < 9 ==> r == "0" + DecimalString(index + 1)
    ensures index >= 9 ==> r == DecimalString(index + 1)
  {
    DecimalRoundTrip(index + 1);
    if index < 9 then
      LeadingZeroValue(DecimalString(index + 1));
      "0" + DecimalString(index + 1)
    else
      DecimalString(index + 1)
  }
}

/** The personal to-do list: time left until each deadline, the overdue and
    due-soon flags, the list ordered by deadline, and the form that inserts a
    task or updates the one being edited. */
module TodoList {
  import opened Js
  import opened Lists

  const NormalPriority: Str := "normal"

  /** A stored deadline: its text and the instant (ms) it denotes. */
  datatype Deadline = Deadline(text: Str, ms: int)

  datatype Task = Task(
    id: int, title: Str, description: Option<Str>, deadline: Deadline,
    priority: Option<Str>, done: bool)

  /** `computeTimeLeft`: the signed whole seconds to the deadline and the
      days, hours and minutes of their magnitude. */
  datatype TimeLeft = TimeLeft(diff: int, days: int, hours: int, minutes: int)

  function Abs(x: int): nat
  {
    if x < 0 then -x else x
  }

  /** `computeTimeLeft(deadline)` at instant `now` (ms). */
  function ComputeTimeLeft(deadline: int, now: int): (t: TimeLeft)
    ensures t.diff * 1000 <= deadline - now < t.diff * 1000 + 1000
    ensures 0 <= t.days && 0 <= t.hours < 24 && 0 <= t.minutes < 60
    ensures t.days * 86400 + t.hours * 3600 + t.minutes * 60 <= Abs(t.diff)
    ensures Abs(t.diff) < t.days * 86400 + t.hours * 3600 + t.minutes * 60 + 60
  {
    var diff := (deadline - now) / 1000;
    var abs := Abs(diff);
    var days := abs / 86400;
    var hours := (abs % 86400) / 3600;
    var minutes := (abs % 3600) / 60;
    var r2 := (abs % 86400) % 3600;
    assert abs % 86400 == hours * 3600 + r2;
    assert abs == (days * 24 + hours) * 3600 + r2;
    assert abs % 3600 == r2;
    assert r2 == minutes * 60 + r2 % 60;
    TimeLeft(diff, days, hours, minutes)
  }

  /** The row flags of a task at instant `now`: overdue when the deadline's
      whole-second difference is negative, due soon when it is at most a day,
      neither once done. */
  datatype Status = Status(isOverdue: bool, dueSoon: bool)

  function TaskStatus(t: Task, now: int): (s: Status)
    ensures s.isOverdue <==> !t.done && t.deadline.ms < now
    ensures s.dueSoon <==> !t.done && now <= t.deadline.ms < now + 86_401_000
    ensures !(s.isOverdue && s.dueSoon)
    ensures t.done ==> !s.isOverdue && !s.dueSoon
  {
    var diff := ComputeTimeLeft(t.deadline.ms, now).diff;
    Status(diff < 0 && !t.done, diff >= 0 && diff <= 86400 && !t.done)
  }

  predicate SortedByDeadline(s: seq<Task>)
  {
    forall i, j :: 0 <= i < j < |s| ==> s[i].deadline.ms <= s[j].deadline.ms
  }

  /** A task no later than the head of a sorted list may be put in front. */
  lemma SortedCons(y: Task, s: seq<Task>)
    requires SortedByDeadline(s)
    requires s != [] ==> y.deadline.ms <= s[0].deadline.ms
    ensures SortedByDeadline([y] + s)
  {
    if s != [] {
      assert forall j :: 0 <= j < |s| ==> s[0].deadline.ms <= s[j].deadline.ms;
    }
  }

  /** Puts `x` in front of the first task whose deadline is not earlier. */
  function Insert(x: Task, s: seq<Task>): (r: seq<Task>)
    ensures multiset(r) == multiset(s) + multiset{x}
    ensures |r| == |s| + 1
    ensures r[0] == x || (s != [] && r[0] == s[0])
    ensures SortedByDeadline(s) ==> SortedByDeadline(r)
  {
    if s == [] || x.deadline.ms <= s[0].deadline.ms then
      if SortedByDeadline(s) then SortedCons(x, s); [x] + s
      else [x] + s
    else
      var rest := Insert(x, s[1..]);
      assert s == [s[0]] + s[1..];
      if SortedByDeadline(s) then
        assert SortedByDeadline(s[1..]);
        SortedCons(s[0], rest);
        [s[0]] + rest
      else [s[0]] + rest
  }

  /** `[...tasks].sort((a, b) => a.deadline - b.deadline)`: a stable sort
      by deadline of a copy. */
  function SortByDeadline(s: seq<Task>): (r: seq<Task>)
    ensures SortedByDeadline(r)
    ensures multiset(r) == multiset(s)
    ensures |r| == |s|
  {
    if s == [] then []
    else
      assert s == [s[0]] + s[1..];
      var r := Insert(s[0], SortByDeadline(s[1..]));
      assert |r| == |multiset(r)|;
      r
  }

  /** The tasks with a given deadline instant. */
  function AtDeadline(k: int): Task -> bool
  {
    (t: Task) => t.deadline.ms == k
  }

  lemma {:induction false} InsertKeepsTies(x: Task, s: seq<Task>, k: int)
    ensures Filter(Insert(x, s), AtDeadline(k)) ==
            if x.deadline.ms == k then [x] + Filter(s, AtDeadline(k)) else Filter(s, AtDeadline(k))
  {
    if s == [] || x.deadline.ms <= s[0].deadline.ms {
      assert ([x] + s)[1..] == s;
    } else {
      InsertKeepsTies(x, s[1..], k);
      assert ([s[0]] + Insert(x, s[1..]))[1..] == Insert(x, s[1..]);
    }
  }

  /** The sort is stable: the tasks sharing any one deadline keep their
      relative order. */
  lemma {:induction false} SortIsStable(s: seq<Task>, k: int)
    ensures Filter(SortByDeadline(s), AtDeadline(k)) == Filter(s, AtDeadline(k))
  {
    if s != [] {
      SortIsStable(s[1..], k);
      InsertKeepsTies(s[0], SortByDeadline(s[1..]), k);
    }
  }

  /** The form's fields. */
  datatype TodoForm = TodoForm(title: Str, description: Str, deadline: Str, priority: Str)

  datatype Field = TitleField | DescriptionField | DeadlineField | PriorityField

  /** `setForm({ ...form, [field]: value })`. */
  function SetField(f: TodoForm, field: Field, v: Str): (r: TodoForm)
    ensures field == TitleField ==> r == f.(title := v)
    ensures field == DescriptionField ==> r == f.(description := v)
    ensures field == DeadlineField ==> r == f.(deadline := v)
    ensures field == PriorityField ==> r == f.(priority := v)
  {
    match field
    case TitleField => f.(title := v)
    case DescriptionField => f.(description := v)
    case DeadlineField => f.(deadline := v)
    case PriorityField => f.(priority := v)
  }

  /** The empty form; its deadline is the current instant's ISO text cut to
      minutes. */
  function EmptyForm(nowIso: Str): TodoForm
  {
    TodoForm("", "", Take(nowIso, 16), NormalPriority)
  }

  /** The record sent to the `todos` table. */
  datatype Payload = Payload(title: Str, description: Str, deadline: Str, priority: Str, userId: Option<Str>)

  datatype TodoWrite = UpdateTodo(id: int, payload: Payload) | InsertTodo(payload: Payload)

  /** What a submit sends: nothing for a white-space-only title; otherwise the
      trimmed title and description with the owner, as an update of the task
      being edited when there is one and an insert otherwise. */
  function SubmitWrite(f: TodoForm, editingId: Option<int>, userId: Option<Str>): (w: Option<TodoWrite>)
    ensures w.None? <==> AllSpace(f.title)
    ensures w.Some? ==>
      && w.value.payload == Payload(Trim(f.title), Trim(f.description), f.deadline, f.priority, userId)
      && w.value.payload.title != []
      && (w.value.UpdateTodo? <==> TruthyId(editingId))
      && (w.value.UpdateTodo? ==> w.value.id == editingId.value)
  {
    if Trim(f.title) == [] then None
    else
      var p := Payload(Trim(f.title), Trim(f.description), f.deadline, f.priority, userId);
      if TruthyId(editingId) then Some(UpdateTodo(editingId.value, p)) else Some(InsertTodo(p))
  }

  /** The form `handleEdit` loads from a task. */
  function EditForm(t: Task): (f: TodoForm)
    ensures f.title == t.title
    ensures f.description == if Truthy(t.description) then t.description.value else ""
    ensures f.deadline == Take(t.deadline.text, 16)
    ensures f.priority == if Truthy(t.priority) then t.priority.value else NormalPriority
  {
    TodoForm(t.title, OrElse(t.description, ""), Take(t.deadline.text, 16), OrElse(t.priority, NormalPriority))
  }

  /** Editing a task with a non-blank title and submitting unchanged sends an
      update of that task carrying its trimmed fields. */
  lemma EditThenSubmit(t: Task, userId: Option<Str>)
    requires t.id != 0 && !AllSpace(t.title)
    ensures var w := SubmitWrite(EditForm(t), Some(t.id), userId);
      && w.Some? && w.value.UpdateTodo? && w.value.id == t.id
      && w.value.payload.title == Trim(t.title)
      && w.value.payload.priority == OrElse(t.priority, NormalPriority)
  {
  }

  /** The update `toggleDone(task)` sends. */
  datatype DoneUpdate = DoneUpdate(id: int, done: bool)

  function ToggleDone(t: Task): (u: DoneUpdate)
    ensures u.id == t.id && u.done == !t.done
  {
    DoneUpdate(t.id, !t.done)
  }

  /** The list's state. */
  class TodoBoard {
    var loading: bool
    var tasks: seq<Task>
    var editingId: Option<int>
    var form: TodoForm

    constructor (nowIso: Str)
      ensures loading && tasks == [] && editingId.None? && form == EmptyForm(nowIso)
    {
      loading, tasks, editingId, form := true, [], None, EmptyForm(nowIso);
    }

    /** The order the list is rendered in; `tasks` itself is left as it is. */
    function Sorted(): seq<Task>
      reads this
    {
      SortByDeadline(tasks)
    }

    /** `refreshTodos` with the query's outcome: nothing without an owner,
      nothing on error, else the returned rows (null reads as none). */
    method RefreshTodos(userId: Option<Str>, q: Query<seq<Task>>)
      modifies this`tasks
      ensures tasks ==
        if !Truthy(userId) || q.error then old(tasks)
        else if q.data.Some? then q.data.value else []
    {
      if !Truthy(userId) {
        return;
      }
      if !q.error {
        tasks := if q.data.Some? then q.data.value else [];
      }
    }

    /** The mount effect: a refresh, after which loading ends. */
    method OnMountRefresh(userId: Option<Str>, q: Query<seq<Task>>)
      modifies this`tasks, this`loading
      ensures !loading
      ensures tasks ==
        if !Truthy(userId) || q.error then old(tasks)
        else if q.data.Some? then q.data.value else []
    {
      RefreshTodos(userId, q);
      loading := false;
    }

    /** `toggleDone(task)`: the update is sent, its outcome ignored, and the
      list is refreshed with `q`, the refresh query's outcome. */
    method HandleToggle(t: Task, userId: Option<Str>, q: Query<seq<Task>>) returns (u: DoneUpdate)
      modifies this`tasks
      ensures u == ToggleDone(t)
      ensures tasks ==
        if !Truthy(userId) || q.error then old(tasks)
        else if q.data.Some? then q.data.value else []
    {
      u := ToggleDone(t);
      RefreshTodos(userId, q);
    }

    method ChangeField(field: Field, v: Str)
      modifies this`form
      ensures form == SetField(old(form), field, v)
    {
      form := SetField(form, field, v);
    }

    /** `resetForm`. */
    method ResetForm(nowIso: Str)
      modifies this`form, this`editingId
      ensures form == EmptyForm(nowIso) && editingId.None?
    {
      form := EmptyForm(nowIso);
      editingId := None;
    }

    /** `handleSubmit`: a blank title does nothing; otherwise the write is
      issued, whatever its outcome the form is reset, and the caller's
      follow-up is a refresh. */
    method HandleSubmit(userId: Option<Str>, nowIso: Str) returns (w: Option<TodoWrite>)
      modifies this`form, this`editingId
      ensures w == SubmitWrite(old(form), old(editingId), userId)
      ensures w.None? ==> form == old(form) && editingId == old(editingId)
      ensures w.Some? ==> form == EmptyForm(nowIso) && editingId.None?
    {
      w := SubmitWrite(form, editingId, userId);
      if w.Some? {
        ResetForm(nowIso);
      }
    }

    /** `handleEdit(task)`. */
    method HandleEdit(t: Task)
      modifies this`form, this`editingId
      ensures editingId == Some(t.id) && form == EditForm(t)
    {
      editingId := Some(t.id);
      form := EditForm(t);
    }
  }
}

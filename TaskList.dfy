/**
  The dashboard's task list (`components/dashboard/TaskList.tsx`): updates of one task by id, the
  three display orderings, and the inline editor of a single task.
*/
module TaskList {
  import opened Wrappers
  import opened Text
  import opened Sorting

  datatype Priority = High | Medium | Low

  datatype SortOrder = Default | HighToLow | LowToHigh

  datatype Task = Task(id: int, text: string, completed: bool, priority: Priority)

  /** `priorityOrder`: High 1, Medium 2, Low 3. */
  function Rank(p: Priority): int {
    match p
    case High => 1
    case Medium => 2
    case Low => 3
  }

  predicate UniqueIds(tasks: seq<Task>) {
    forall i, j :: 0 <= i < j < |tasks| ==> tasks[i].id != tasks[j].id
  }

  // ---------------------------------------------------------------------------------------------
  // Updates by id
  // ---------------------------------------------------------------------------------------------

  /** `handleToggleComplete`: flips `completed` of every task with the id; nothing else changes. */
  function ToggleComplete(tasks: seq<Task>, id: int): (r: seq<Task>)
    ensures |r| == |tasks|
    ensures forall i :: 0 <= i < |r| ==>
      && r[i].id == tasks[i].id && r[i].text == tasks[i].text && r[i].priority == tasks[i].priority
      && (r[i].completed != tasks[i].completed <==> tasks[i].id == id)
  {
    seq(|tasks|, i requires 0 <= i < |tasks| =>
      if tasks[i].id == id then tasks[i].(completed := !tasks[i].completed) else tasks[i])
  }

  /** With unique ids, which the board keeps, a toggle changes at most one task. */
  lemma ToggleChangesOneTask(tasks: seq<Task>, id: int)
    requires UniqueIds(tasks)
    ensures var r := ToggleComplete(tasks, id);
      forall i, j :: 0 <= i < |tasks| && 0 <= j < |tasks| && r[i] != tasks[i] && r[j] != tasks[j] ==> i == j
  {
  }

  /** Toggling twice restores the list. */
  lemma ToggleTwice(tasks: seq<Task>, id: int)
    ensures ToggleComplete(ToggleComplete(tasks, id), id) == tasks
  {
    var r := ToggleComplete(ToggleComplete(tasks, id), id);
    assert forall i :: 0 <= i < |tasks| ==> r[i] == tasks[i];
  }

  /** `handlePriorityChange`: the matching tasks take the new priority; nothing else changes. */
  function ChangePriority(tasks: seq<Task>, id: int, p: Priority): (r: seq<Task>)
    ensures |r| == |tasks|
    ensures forall i :: 0 <= i < |r| ==>
      && r[i].id == tasks[i].id && r[i].text == tasks[i].text && r[i].completed == tasks[i].completed
      && r[i].priority == (if tasks[i].id == id then p else tasks[i].priority)
  {
    seq(|tasks|, i requires 0 <= i < |tasks| => if tasks[i].id == id then tasks[i].(priority := p) else tasks[i])
  }

  /** `handleTaskEdit`: the matching tasks take the new text, exactly as given; nothing else changes. */
  function EditText(tasks: seq<Task>, id: int, text: string): (r: seq<Task>)
    ensures |r| == |tasks|
    ensures forall i :: 0 <= i < |r| ==>
      && r[i].id == tasks[i].id && r[i].completed == tasks[i].completed && r[i].priority == tasks[i].priority
      && r[i].text == (if tasks[i].id == id then text else tasks[i].text)
  {
    seq(|tasks|, i requires 0 <= i < |tasks| => if tasks[i].id == id then tasks[i].(text := text) else tasks[i])
  }

  /** A second change of priority or text overrides the first, and an update for an unknown id changes nothing. */
  lemma UpdatesLastWins(tasks: seq<Task>, id: int, p: Priority, q: Priority, s: string, t: string)
    ensures ChangePriority(ChangePriority(tasks, id, p), id, q) == ChangePriority(tasks, id, q)
    ensures EditText(EditText(tasks, id, s), id, t) == EditText(tasks, id, t)
    ensures (forall i :: 0 <= i < |tasks| ==> tasks[i].id != id) ==>
      ToggleComplete(tasks, id) == tasks && ChangePriority(tasks, id, p) == tasks && EditText(tasks, id, s) == tasks
  {
    var a, b := ChangePriority(ChangePriority(tasks, id, p), id, q), ChangePriority(tasks, id, q);
    assert forall i :: 0 <= i < |a| ==> a[i] == b[i];
    var c, d := EditText(EditText(tasks, id, s), id, t), EditText(tasks, id, t);
    assert forall i :: 0 <= i < |c| ==> c[i] == d[i];
    if forall i :: 0 <= i < |tasks| ==> tasks[i].id != id {
      var x, y, z := ToggleComplete(tasks, id), ChangePriority(tasks, id, p), EditText(tasks, id, s);
      assert forall i :: 0 <= i < |tasks| ==> x[i] == tasks[i] && y[i] == tasks[i] && z[i] == tasks[i];
    }
  }

  // ---------------------------------------------------------------------------------------------
  // Orderings
  // ---------------------------------------------------------------------------------------------

  /** Those tasks whose completion is the one given, in their order. */
  function Filter(tasks: seq<Task>, done: bool): (r: seq<Task>)
    ensures forall i :: 0 <= i < |r| ==> r[i].completed == done
  {
    if tasks == [] then [] else (if tasks[0].completed == done then [tasks[0]] else []) + Filter(tasks[1..], done)
  }

  lemma {:induction false} FilterAppend(a: seq<Task>, b: seq<Task>, done: bool)
    ensures Filter(a + b, done) == Filter(a, done) + Filter(b, done)
  {
    if a == [] {
      assert a + b == b;
    } else {
      assert (a + b)[1..] == a[1..] + b;
      FilterAppend(a[1..], b, done);
    }
  }

  lemma {:induction false} FilterUniform(tasks: seq<Task>, done: bool)
    requires forall i :: 0 <= i < |tasks| ==> tasks[i].completed == done
    ensures Filter(tasks, done) == tasks && Filter(tasks, !done) == []
  {
    if tasks != [] {
      FilterUniform(tasks[1..], done);
      assert tasks == [tasks[0]] + tasks[1..];
    }
  }

  lemma {:induction false} FilterPartition(tasks: seq<Task>)
    ensures multiset(Filter(tasks, false)) + multiset(Filter(tasks, true)) == multiset(tasks)
  {
    if tasks != [] {
      FilterPartition(tasks[1..]);
      assert tasks == [tasks[0]] + tasks[1..];
    }
  }

  function CompletionWeight(t: Task): int {
    if t.completed then 10 else 0
  }

  /** Sort keys whose order agrees with the comparator of each priority ordering (`CompareAgreesWithKey`). */
  function HighToLowKey(t: Task): int {
    CompletionWeight(t) + Rank(t.priority)
  }

  function LowToHighKey(t: Task): int {
    CompletionWeight(t) - Rank(t.priority)
  }

  function KeyOf(order: SortOrder): Task -> int
    requires order != Default
  {
    if order == HighToLow then HighToLowKey else LowToHighKey
  }

  /** The comparator passed to `sort`, as written. */
  function Compare(order: SortOrder, a: Task, b: Task): int {
    if a.completed != b.completed then (if a.completed then 1 else -1)
    else if order == HighToLow then Rank(a.priority) - Rank(b.priority)
    else if order == LowToHigh then Rank(b.priority) - Rank(a.priority)
    else 0
  }

  /** The comparator's sign is the sign of the key difference, so sorting by the key is sorting by the comparator. */
  lemma CompareAgreesWithKey(order: SortOrder, a: Task, b: Task)
    requires order != Default
    ensures Compare(order, a, b) < 0 <==> KeyOf(order)(a) < KeyOf(order)(b)
    ensures Compare(order, a, b) == 0 <==> KeyOf(order)(a) == KeyOf(order)(b)
  {
  }

  /** `sortedTasks` */
  function SortedTasks(tasks: seq<Task>, order: SortOrder): seq<Task> {
    if order == Default then Filter(tasks, false) + Filter(tasks, true)
    else SortBy(tasks, KeyOf(order))
  }

  /**
    The default ordering is the incomplete tasks then the completed ones, each group in its original
    order, and loses or adds nothing.
  */
  lemma DefaultOrdering(tasks: seq<Task>)
    ensures var r := SortedTasks(tasks, Default);
      && multiset(r) == multiset(tasks)
      && (forall i, j :: 0 <= i < j < |r| && r[i].completed ==> r[j].completed)
      && Filter(r, false) == Filter(tasks, false) && Filter(r, true) == Filter(tasks, true)
  {
    var inc, done := Filter(tasks, false), Filter(tasks, true);
    FilterPartition(tasks);
    FilterAppend(inc, done, false);
    FilterAppend(inc, done, true);
    FilterUniform(inc, false);
    FilterUniform(done, true);
  }

  /** What being sorted by a priority ordering's key means for completion and priority. */
  lemma SortedByOrderKey(r: seq<Task>, order: SortOrder)
    requires order != Default && SortedBy(r, KeyOf(order))
    ensures forall i, j :: 0 <= i < j < |r| && r[i].completed ==> r[j].completed
    ensures forall i, j :: 0 <= i < j < |r| && r[i].completed == r[j].completed ==>
      if order == HighToLow then Rank(r[i].priority) <= Rank(r[j].priority)
      else Rank(r[i].priority) >= Rank(r[j].priority)
  {
    var key := KeyOf(order);
    forall i, j | 0 <= i < j < |r|
      ensures r[i].completed ==> r[j].completed
      ensures r[i].completed == r[j].completed ==>
        if order == HighToLow then Rank(r[i].priority) <= Rank(r[j].priority)
        else Rank(r[i].priority) >= Rank(r[j].priority)
    {
      assert key(r[i]) <= key(r[j]);
    }
  }

  /**
    A priority ordering is a permutation in which every incomplete task precedes every completed one
    and, within equal completion, priorities run High, Medium, Low (or the reverse for lowToHigh);
    tasks that compare equal keep their original order.
  */
  lemma PriorityOrdering(tasks: seq<Task>, order: SortOrder, k: int)
    requires order != Default
    ensures var r := SortedTasks(tasks, order);
      && multiset(r) == multiset(tasks)
      && (forall i, j :: 0 <= i < j < |r| && r[i].completed ==> r[j].completed)
      && (forall i, j :: 0 <= i < j < |r| && r[i].completed == r[j].completed ==>
            if order == HighToLow then Rank(r[i].priority) <= Rank(r[j].priority)
            else Rank(r[i].priority) >= Rank(r[j].priority))
      && WithKey(r, KeyOf(order), k) == WithKey(tasks, KeyOf(order), k)
  {
    SortByStable(tasks, KeyOf(order), k);
    SortedByOrderKey(SortBy(tasks, KeyOf(order)), order);
  }

  /** Every ordering shows each task exactly as often as the list holds it. */
  lemma OrderingsArePermutations(tasks: seq<Task>, order: SortOrder)
    ensures multiset(SortedTasks(tasks, order)) == multiset(tasks)
  {
    if order == Default {
      DefaultOrdering(tasks);
    }
  }

  // ---------------------------------------------------------------------------------------------
  // Component state
  // ---------------------------------------------------------------------------------------------

  /** The list component: its `tasks` and `sortBy` state, replaced whole by each handler. */
  class Board {
    var tasks: seq<Task>
    var sortBy: SortOrder

    ghost predicate Valid()
      reads this
    {
      UniqueIds(tasks)
    }

    constructor(initial: seq<Task>)
      requires UniqueIds(initial)
      ensures Valid() && tasks == initial && sortBy == Default
    {
      tasks, sortBy := initial, Default;
    }

    function Shown(): seq<Task>
      reads this
    {
      SortedTasks(tasks, sortBy)
    }

    method HandleToggleComplete(id: int)
      requires Valid()
      modifies this
      ensures Valid() && tasks == ToggleComplete(old(tasks), id) && sortBy == old(sortBy)
    {
      tasks := ToggleComplete(tasks, id);
    }

    method HandlePriorityChange(id: int, p: Priority)
      requires Valid()
      modifies this
      ensures Valid() && tasks == ChangePriority(old(tasks), id, p) && sortBy == old(sortBy)
    {
      tasks := ChangePriority(tasks, id, p);
    }

    method HandleTaskEdit(id: int, text: string)
      requires Valid()
      modifies this
      ensures Valid() && tasks == EditText(old(tasks), id, text) && sortBy == old(sortBy)
    {
      tasks := EditText(tasks, id, text);
    }

    method SetSortBy(order: SortOrder)
      requires Valid()
      modifies this
      ensures Valid() && tasks == old(tasks) && sortBy == order
    {
      sortBy := order;
    }
  }

  /** The inline editor of one task (`TaskItem`). */
  class Item {
    var task: Task
    var isEditing: bool
    var editText: string

    constructor(task: Task)
      ensures this.task == task && !isEditing && editText == task.text
    {
      this.task, isEditing, editText := task, false, task.text;
    }

    /** The pencil button: enter edit mode with this task's current text. */
    method BeginEdit()
      modifies this
      ensures task == old(task) && isEditing && editText == task.text
    {
      isEditing, editText := true, task.text;
    }

    method TypeText(text: string)
      modifies this
      ensures task == old(task) && isEditing == old(isEditing) && editText == text
    {
      editText := text;
    }

    /**
      `handleSave`: a blank edit text (`!editText.trim()`, see `TrimEmptyIffBlank`) does nothing;
      otherwise `onEdit` receives this task's id and the text as typed, untrimmed, and edit mode ends.
    */
    method Save() returns (edit: Option<(int, string)>)
      modifies this
      ensures task == old(task) && editText == old(editText)
      ensures IsBlank(old(editText)) ==> edit == None && isEditing == old(isEditing)
      ensures !IsBlank(old(editText)) ==> edit == Some((task.id, old(editText))) && !isEditing
    {
      if IsBlank(editText) {
        return None;
      }
      edit := Some((task.id, editText));
      isEditing := false;
    }

    /** `handleCancel`: the edit text goes back to this task's current text and edit mode ends. */
    method Cancel()
      modifies this
      ensures task == old(task) && !isEditing && editText == task.text
    {
      editText, isEditing := task.text, false;
    }
  }
}

/**
 * The todo list widget: tasks are added from a text input (trimmed, blank
 * input refused), toggled and deleted by id, and shown as the pending tasks
 * followed by at most three completed ones. Ids are the decimal rendering of
 * the clock reading at the time of adding and need not be unique.
 */
module Todos {
  import opened Text

  datatype Todo = Todo(id: string, text: string, completed: bool, createdAt: int)

  // ---------------------------------------------------------------------------
  // Order-preserving filters

  /** `s.filter(keep)`: the elements satisfying `keep`, in their original order. */
  function Filter<T>(s: seq<T>, keep: T -> bool): (r: seq<T>)
    ensures |r| <= |s|
  {
    if s == [] then [] else (if keep(s[0]) then [s[0]] else []) + Filter(s[1..], keep)
  }

  /** The filtered list holds exactly the elements of the list that pass the test. */
  lemma {:induction false} FilterMembers<T>(s: seq<T>, keep: T -> bool)
    ensures forall x :: x in Filter(s, keep) <==> x in s && keep(x)
  {
    if s != [] {
      FilterMembers(s[1..], keep);
      assert s == [s[0]] + s[1..];
    }
  }

  /** Filtering a list made of two pieces filters each piece in place: relative order is kept. */
  lemma {:induction false} FilterConcat<T>(a: seq<T>, b: seq<T>, keep: T -> bool)
    ensures Filter(a + b, keep) == Filter(a, keep) + Filter(b, keep)
    decreases |a|
  {
    if a == [] {
      assert a + b == b;
    } else {
      var x := if keep(a[0]) then [a[0]] else [];
      assert (a + b)[0] == a[0] && (a + b)[1..] == a[1..] + b;
      calc {
        Filter(a + b, keep);
        x + Filter(a[1..] + b, keep);
        { FilterConcat(a[1..], b, keep); }
        x + (Filter(a[1..], keep) + Filter(b, keep));
        (x + Filter(a[1..], keep)) + Filter(b, keep);
      }
    }
  }

  /**
   * Filtering by a test and by its negation splits the list: every element
   * lands on exactly one side, as often as it occurs.
   */
  lemma {:induction false} FilterSplits<T>(s: seq<T>, keep: T -> bool, drop: T -> bool)
    requires forall x :: drop(x) <==> !keep(x)
    ensures multiset(Filter(s, keep)) + multiset(Filter(s, drop)) == multiset(s)
    ensures |Filter(s, keep)| + |Filter(s, drop)| == |s|
  {
    if s != [] {
      var head, rest := [s[0]], s[1..];
      FilterSplits(rest, keep, drop);
      assert s == head + rest;
      var kept, dropped := if keep(s[0]) then head else [], if keep(s[0]) then [] else head;
      assert Filter(s, keep) == kept + Filter(rest, keep);
      assert Filter(s, drop) == dropped + Filter(rest, drop);
      assert multiset(kept) + multiset(dropped) == multiset(head);
      calc {
        multiset(Filter(s, keep)) + multiset(Filter(s, drop));
        multiset(kept) + multiset(Filter(rest, keep)) + (multiset(dropped) + multiset(Filter(rest, drop)));
        multiset(head) + (multiset(Filter(rest, keep)) + multiset(Filter(rest, drop)));
        multiset(head) + multiset(rest);
        multiset(s);
      }
    }
  }

  /** A filter that keeps every element gives the list back. */
  lemma {:induction false} FilterAll<T>(s: seq<T>, keep: T -> bool)
    requires forall i :: 0 <= i < |s| ==> keep(s[i])
    ensures Filter(s, keep) == s
  {
    if s != [] {
      FilterAll(s[1..], keep);
    }
  }

  // ---------------------------------------------------------------------------
  // The list operations

  /**
   * `addTodo` on the list: a text that trims to nothing leaves the list as it
   * is; any other text appends one new, open task holding the trimmed text,
   * with `id` the decimal rendering of the first clock reading and `createdAt`
   * the second.
   */
  function Added(todos: seq<Todo>, input: string, idTime: nat, createdAt: nat): (r: seq<Todo>)
    ensures AllWhitespace(input) ==> r == todos
    ensures !AllWhitespace(input) ==>
      && |r| == |todos| + 1 && r[..|todos|] == todos
      && r[|todos|].text == Trim(input) && r[|todos|].text != []
      && !r[|todos|].completed && r[|todos|].createdAt == createdAt
      && AllDigits(r[|todos|].id) && DigitsValue(r[|todos|].id) == idTime
  {
    TrimEmptyIffWhitespace(input);
    var text := Trim(input);
    if text != [] then
      DecimalRoundTrip(idTime);
      assert (todos + [Todo(DecimalString(idTime), text, false, createdAt)])[..|todos|] == todos;
      todos + [Todo(DecimalString(idTime), text, false, createdAt)]
    else todos
  }

  /** The list changes on adding exactly when the input holds something besides whitespace. */
  lemma AddedChanges(todos: seq<Todo>, input: string, idTime: nat, createdAt: nat)
    ensures Added(todos, input, idTime, createdAt) == todos <==> AllWhitespace(input)
  {
    if !AllWhitespace(input) {
      assert |Added(todos, input, idTime, createdAt)| != |todos|;
    }
  }

  function Flip(t: Todo, id: string): Todo {
    if t.id == id then t.(completed := !t.completed) else t
  }

  /**
   * `toggleTodo(id)`: every task whose id matches has its completion flipped;
   * all tasks keep their place, id, text and creation time.
   */
  function Toggled(todos: seq<Todo>, id: string): (r: seq<Todo>)
    ensures |r| == |todos|
    ensures forall i :: 0 <= i < |r| ==>
      && r[i].id == todos[i].id && r[i].text == todos[i].text && r[i].createdAt == todos[i].createdAt
      && (r[i].completed <==> (todos[i].completed != (todos[i].id == id)))
  {
    seq(|todos|, i requires 0 <= i < |todos| => Flip(todos[i], id))
  }

  /** Toggling the same id twice restores the list. */
  lemma ToggledTwice(todos: seq<Todo>, id: string)
    ensures Toggled(Toggled(todos, id), id) == todos
  {
  }

  /** Toggling an id no task carries leaves the list as it is. */
  lemma ToggledAbsent(todos: seq<Todo>, id: string)
    requires forall i :: 0 <= i < |todos| ==> todos[i].id != id
    ensures Toggled(todos, id) == todos
  {
  }

  predicate HasOtherId(id: string, t: Todo) {
    t.id != id
  }

  /**
   * `deleteTodo(id)`: exactly the tasks whose id matches are gone; the rest
   * stay, in their order (see `DeletedConcat`).
   */
  function Deleted(todos: seq<Todo>, id: string): (r: seq<Todo>)
    ensures |r| <= |todos|
    ensures forall t :: t in r <==> t in todos && t.id != id
  {
    FilterMembers(todos, t => HasOtherId(id, t));
    Filter(todos, t => HasOtherId(id, t))
  }

  /** Deleting works piece by piece, so the survivors keep their relative order. */
  lemma DeletedConcat(a: seq<Todo>, b: seq<Todo>, id: string)
    ensures Deleted(a + b, id) == Deleted(a, id) + Deleted(b, id)
  {
    FilterConcat(a, b, t => HasOtherId(id, t));
  }

  /** Deleting an id no task carries leaves the list as it is. */
  lemma DeletedAbsent(todos: seq<Todo>, id: string)
    requires forall i :: 0 <= i < |todos| ==> todos[i].id != id
    ensures Deleted(todos, id) == todos
  {
    FilterAll(todos, t => HasOtherId(id, t));
  }

  // ---------------------------------------------------------------------------
  // What is shown

  predicate IsCompleted(t: Todo) {
    t.completed
  }

  predicate IsPending(t: Todo) {
    !t.completed
  }

  /** `todos.filter(todo => !todo.completed)`. */
  function Pending(todos: seq<Todo>): (r: seq<Todo>)
    ensures forall t :: t in r <==> t in todos && !t.completed
  {
    FilterMembers(todos, IsPending);
    Filter(todos, IsPending)
  }

  /** `todos.filter(todo => todo.completed)`. */
  function Completed(todos: seq<Todo>): (r: seq<Todo>)
    ensures forall t :: t in r <==> t in todos && t.completed
  {
    FilterMembers(todos, IsCompleted);
    Filter(todos, IsCompleted)
  }

  /**
   * Pending and completed split the list: together they hold every task
   * exactly as often as the list does, so their lengths add up to its length.
   */
  lemma PendingCompletedPartition(todos: seq<Todo>)
    ensures multiset(Pending(todos)) + multiset(Completed(todos)) == multiset(todos)
    ensures |Pending(todos)| + |Completed(todos)| == |todos|
  {
    FilterSplits(todos, IsCompleted, IsPending);
  }

  /** Both views keep the list's order: each is computed piece by piece. */
  lemma PendingCompletedConcat(a: seq<Todo>, b: seq<Todo>)
    ensures Pending(a + b) == Pending(a) + Pending(b)
    ensures Completed(a + b) == Completed(a) + Completed(b)
  {
    FilterConcat(a, b, IsPending);
    FilterConcat(a, b, IsCompleted);
  }

  /** `completedTodos.slice(0, 3)`: the completed tasks that are displayed. */
  function ShownCompleted(todos: seq<Todo>): (r: seq<Todo>)
    ensures |r| <= 3
    ensures |r| == if |Completed(todos)| < 3 then |Completed(todos)| else 3
    ensures r == Completed(todos)[..|r|]
  {
    var c := Completed(todos);
    if |c| <= 3 then c else c[..3]
  }

  /** Adding a task puts it at the end of the pending tasks and leaves the completed ones. */
  lemma AddedIsPending(todos: seq<Todo>, input: string, idTime: nat, createdAt: nat)
    requires !AllWhitespace(input)
    ensures var r := Added(todos, input, idTime, createdAt);
      Pending(r) == Pending(todos) + [r[|todos|]] && Completed(r) == Completed(todos)
  {
    var r := Added(todos, input, idTime, createdAt);
    assert r == todos + [r[|todos|]];
    PendingCompletedConcat(todos, [r[|todos|]]);
  }

  // ---------------------------------------------------------------------------
  // The widget's state cells

  /** The persisted `todos` list and the input's two cells. */
  class TodoList {
    var todos: seq<Todo>
    var newTodo: string
    var isAddingTodo: bool

    /** A fresh widget around the list read from storage. */
    constructor (stored: seq<Todo>)
      ensures todos == stored && newTodo == "" && !isAddingTodo
    {
      todos := stored;
      newTodo := "";
      isAddingTodo := false;
    }

    /**
     * `addTodo`, reading the clock twice (id and creation time): with a blank
     * input nothing changes; otherwise the task is appended, the input cleared
     * and the adding mode closed.
     */
    method AddTodo(idTime: nat, createdAt: nat)
      modifies this
      ensures todos == Added(old(todos), old(newTodo), idTime, createdAt)
      ensures AllWhitespace(old(newTodo)) ==> newTodo == old(newTodo) && isAddingTodo == old(isAddingTodo)
      ensures !AllWhitespace(old(newTodo)) ==> newTodo == "" && !isAddingTodo
    {
      TrimEmptyIffWhitespace(newTodo);
      var text := Trim(newTodo);
      if text != [] {
        var todo := Todo(DecimalString(idTime), text, false, createdAt);
        todos := todos + [todo];
        newTodo := "";
        isAddingTodo := false;
      }
    }

    method ToggleTodo(id: string)
      modifies this`todos
      ensures todos == Toggled(old(todos), id)
    {
      todos := Toggled(todos, id);
    }

    method DeleteTodo(id: string)
      modifies this`todos
      ensures todos == Deleted(old(todos), id)
    {
      todos := Deleted(todos, id);
    }

    /** Enter adds the task; Escape closes the input and clears it; other keys do nothing. */
    method HandleKeyDown(key: string, idTime: nat, createdAt: nat)
      modifies this
      ensures key == "Enter" ==> todos == Added(old(todos), old(newTodo), idTime, createdAt)
      ensures key == "Enter" && !AllWhitespace(old(newTodo)) ==> newTodo == "" && !isAddingTodo
      ensures key == "Enter" && AllWhitespace(old(newTodo)) ==> newTodo == old(newTodo) && isAddingTodo == old(isAddingTodo)
      ensures key == "Escape" ==> todos == old(todos) && newTodo == "" && !isAddingTodo
      ensures key != "Enter" && key != "Escape" ==>
        todos == old(todos) && newTodo == old(newTodo) && isAddingTodo == old(isAddingTodo)
    {
      if key == "Enter" {
        AddTodo(idTime, createdAt);
      } else if key == "Escape" {
        isAddingTodo := false;
        newTodo := "";
      }
    }

    /** The "Add Task" button opens the input. */
    method StartAdding()
      modifies this`isAddingTodo
      ensures isAddingTodo
    {
      isAddingTodo := true;
    }

    /** The "Cancel" button: closes the input and clears it, the list untouched. */
    method Cancel()
      modifies this`isAddingTodo, this`newTodo
      ensures !isAddingTodo && newTodo == ""
    {
      isAddingTodo := false;
      newTodo := "";
    }

    /** Typing in the input. */
    method SetNewTodo(value: string)
      modifies this`newTodo
      ensures newTodo == value
    {
      newTodo := value;
    }
  }
}

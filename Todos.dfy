/** The task list: an ordered list of to-do entries and the text typed
    into the input box.  The list updates (append, map-and-flip,
    filter-by-id) are functions on `seq<Todo>`; the class TodoStore holds
    the two state fields the widget keeps and replaces them through those
    functions. */
module Todos {
  import opened Text

  datatype Todo = Todo(id: string, text: string, completed: bool)

  /** The three entries the list starts with: distinct ids, one of them
      already finished. */
  function Seed(): (r: seq<Todo>)
    ensures |r| == 3
    ensures forall i, j :: 0 <= i < j < |r| ==> r[i].id != r[j].id
    ensures CompletedCount(r) == 1
  {
    [ Todo("1", "Complete project proposal", false),
      Todo("2", "Review design mockups", true),
      Todo("3", "Prepare presentation slides", false) ]
  }

  /** The guard of the add handler: `inputValue.trim()` is not empty. */
  function HasContent(input: string): (b: bool)
    ensures b <==> !AllWhitespace(input)
  {
    TrimEmptyIffBlank(input);
    Trim(input) != []
  }

  /** The list after the add handler: input that is whitespace only adds
      nothing; any other input appends one open entry at the end, whose
      text is the input exactly as typed (untrimmed). */
  function AfterAdd(todos: seq<Todo>, input: string, newId: string): (r: seq<Todo>)
    ensures AllWhitespace(input) ==> r == todos
    ensures !AllWhitespace(input) ==>
              |r| == |todos| + 1 && r[..|todos|] == todos && r[|todos|] == Todo(newId, input, false)
  {
    if HasContent(input) then todos + [Todo(newId, input, false)] else todos
  }

  /** One entry under the toggle: `completed` flips exactly when the id
      matches; id and text are kept. */
  function ToggleEntry(t: Todo, id: string): (r: Todo)
    ensures r.id == t.id && r.text == t.text
    ensures r.completed <==> (t.completed != (t.id == id))
  {
    if t.id == id then t.(completed := !t.completed) else t
  }

  /** The list after toggling `id`: the same entries in the same order, with
      `completed` flipped on exactly those whose id is `id` (ids are not
      guaranteed unique, so that may be several). */
  function Toggled(todos: seq<Todo>, id: string): (r: seq<Todo>)
    ensures |r| == |todos|
    ensures forall i :: 0 <= i < |r| ==>
              r[i].id == todos[i].id && r[i].text == todos[i].text
              && (r[i].completed <==> (todos[i].completed != (todos[i].id == id)))
  {
    seq(|todos|, i requires 0 <= i < |todos| => ToggleEntry(todos[i], id))
  }

  /** Toggling the same id twice gives back the list. */
  lemma ToggleTwice(todos: seq<Todo>, id: string)
    ensures Toggled(Toggled(todos, id), id) == todos
  {
    var r := Toggled(Toggled(todos, id), id);
    assert forall i :: 0 <= i < |todos| ==> r[i] == todos[i];
  }

  /** Toggling an id no entry has changes nothing. */
  lemma ToggleUnknownId(todos: seq<Todo>, id: string)
    requires forall i :: 0 <= i < |todos| ==> todos[i].id != id
    ensures Toggled(todos, id) == todos
  {
    var r := Toggled(todos, id);
    assert forall i :: 0 <= i < |todos| ==> r[i] == todos[i];
  }

  /** The list after deleting `id`: exactly the entries whose id is not
      `id`, and nothing else. */
  function Deleted(todos: seq<Todo>, id: string): (r: seq<Todo>)
    ensures |r| <= |todos|
    ensures forall t :: t in r <==> t in todos && t.id != id
  {
    if todos == [] then []
    else (if todos[0].id == id then [] else [todos[0]]) + Deleted(todos[1..], id)
  }

  /** Deletion works entry by entry, so the survivors keep their relative
      order: deleting from a concatenation is concatenating the deletions. */
  lemma {:induction false} DeletedConcat(a: seq<Todo>, b: seq<Todo>, id: string)
    ensures Deleted(a + b, id) == Deleted(a, id) + Deleted(b, id)
  {
    if a == [] {
      assert a + b == b;
    } else {
      assert (a + b)[1..] == a[1..] + b;
      DeletedConcat(a[1..], b, id);
    }
  }

  /** Deleting an id no entry has changes nothing. */
  lemma {:induction false} DeletedUnknownId(todos: seq<Todo>, id: string)
    requires forall i :: 0 <= i < |todos| ==> todos[i].id != id
    ensures Deleted(todos, id) == todos
  {
    if todos != [] {
      DeletedUnknownId(todos[1..], id);
    }
  }

  /** Deleting the same id twice is deleting it once. */
  lemma DeletedIdempotent(todos: seq<Todo>, id: string)
    ensures Deleted(Deleted(todos, id), id) == Deleted(todos, id)
  {
    var r := Deleted(todos, id);
    forall i | 0 <= i < |r| ensures r[i].id != id {
      assert r[i] in r;
    }
    DeletedUnknownId(r, id);
  }

  /** The number of finished entries (`todos.filter(t => t.completed).length`). */
  function CompletedCount(todos: seq<Todo>): (n: nat)
    ensures n <= |todos|
    ensures n == |todos| <==> forall i :: 0 <= i < |todos| ==> todos[i].completed
  {
    if todos == [] then 0
    else (if todos[0].completed then 1 else 0) + CompletedCount(todos[1..])
  }

  /** Appending an entry adds one to the count exactly when it is finished. */
  lemma {:induction false} CompletedCountAppend(todos: seq<Todo>, t: Todo)
    ensures CompletedCount(todos + [t]) == CompletedCount(todos) + (if t.completed then 1 else 0)
  {
    if todos != [] {
      assert (todos + [t])[1..] == todos[1..] + [t];
      CompletedCountAppend(todos[1..], t);
    }
  }

  /** Adding a task never changes the number of finished ones. */
  lemma AddKeepsCompletedCount(todos: seq<Todo>, input: string, newId: string)
    ensures CompletedCount(AfterAdd(todos, input, newId)) == CompletedCount(todos)
  {
    if !AllWhitespace(input) {
      assert AfterAdd(todos, input, newId) == todos + [Todo(newId, input, false)];
      CompletedCountAppend(todos, Todo(newId, input, false));
    }
  }

  /** The width of the progress bar, in percent: finished over total, and 0
      for an empty list. */
  function ProgressPercent(todos: seq<Todo>): (p: real)
    ensures 0.0 <= p <= 100.0
    ensures |todos| == 0 ==> p == 0.0
    ensures |todos| > 0 ==> (p == 100.0 <==> CompletedCount(todos) == |todos|)
    ensures |todos| > 0 ==> p * (|todos| as real) == 100.0 * (CompletedCount(todos) as real)
  {
    var total := |todos|;
    var done := CompletedCount(todos);
    if total > 0 then
      FractionBounds(done as real, total as real);
      (done as real / total as real) * 100.0
    else 0.0
  }

  /** A share of a positive whole lies in [0, 1] and is 1 exactly when it is the whole. */
  lemma FractionBounds(d: real, t: real)
    requires 0.0 <= d <= t && t > 0.0
    ensures 0.0 <= d / t <= 1.0
    ensures d / t == 1.0 <==> d == t
  {
    var q := d / t;
    assert q * t == d;
  }

  // ----- The widget's state, replaced by the handlers -----

  class TodoStore {
    var todos: seq<Todo>
    var inputValue: string

    constructor ()
      ensures todos == Seed() && inputValue == ""
    {
      todos := Seed();
      inputValue := "";
    }

    /** Typing into the input box. */
    method SetInput(value: string)
      modifies this
      ensures inputValue == value && todos == old(todos)
    {
      inputValue := value;
    }

    /** The add button; `newId` stands for the `Date.now()` timestamp. */
    method AddTodo(newId: string)
      modifies this
      ensures todos == AfterAdd(old(todos), old(inputValue), newId)
      ensures inputValue == if HasContent(old(inputValue)) then "" else old(inputValue)
    {
      if HasContent(inputValue) {
        todos := todos + [Todo(newId, inputValue, false)];
        inputValue := "";
      }
    }

    method ToggleTodo(id: string)
      modifies this
      ensures todos == Toggled(old(todos), id) && inputValue == old(inputValue)
    {
      todos := Toggled(todos, id);
    }

    method DeleteTodo(id: string)
      modifies this
      ensures todos == Deleted(old(todos), id) && inputValue == old(inputValue)
    {
      todos := Deleted(todos, id);
    }

    /** A key press in the input box: Enter adds, any other key does nothing. */
    method HandleKeyPress(key: string, newId: string)
      modifies this
      ensures key == "Enter" ==> todos == AfterAdd(old(todos), old(inputValue), newId)
      ensures key == "Enter" ==> inputValue == if HasContent(old(inputValue)) then "" else old(inputValue)
      ensures key != "Enter" ==> todos == old(todos) && inputValue == old(inputValue)
    {
      if key == "Enter" {
        AddTodo(newId);
      }
    }
  }
}

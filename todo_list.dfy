/** The TODO list screen (`exercises1/frontend/components/TodoList.tsx`): its `todos` and
    `selectedTag` state, the handlers that replace that state, and the derived filtered
    list and tag union. The server call of the status change is an input: whether it
    succeeds. */
module TodoListScreen {
  import opened Wrappers
  import opened Seqs
  import opened TodoRecord

  /** The tags of a TODO that carries a tag array (every TODO the API client hands over
      does). */
  function TagsOf(t: Todo): seq<string>
  {
    if t.tags.Present? then t.tags.value else []
  }

  /** `prevTodos.filter((todo) => todo.id !== id)`. */
  function Deleted(todos: seq<Todo>, id: string): (r: seq<Todo>)
    ensures forall t :: t in r <==> t in todos && t.id != id
  {
    Filter(todos, (t: Todo) => t.id != id)
  }

  /** Deleting an id that no TODO carries keeps the list as it is. */
  lemma DeleteAbsent(todos: seq<Todo>, id: string)
    requires forall i :: 0 <= i < |todos| ==> todos[i].id != id
    ensures Deleted(todos, id) == todos
  {
    FilterAll(todos, (t: Todo) => t.id != id);
  }

  /** Deleting is applied element by element: the survivors keep their order. */
  lemma DeleteConcat(a: seq<Todo>, b: seq<Todo>, id: string)
    ensures Deleted(a + b, id) == Deleted(a, id) + Deleted(b, id)
  {
    FilterConcat(a, b, (t: Todo) => t.id != id);
  }

  /** The local update of `handleStatusChange`: `is_completed` of the TODOs with that id
      becomes the new value; nothing else changes. */
  function WithStatus(todos: seq<Todo>, id: string, isCompleted: bool): (r: seq<Todo>)
    ensures |r| == |todos|
    ensures forall i :: 0 <= i < |todos| ==>
      r[i].(isCompleted := todos[i].isCompleted) == todos[i]
      && r[i].isCompleted == (if todos[i].id == id then Present(isCompleted) else todos[i].isCompleted)
  {
    Map(todos, (t: Todo) => if t.id == id then t.(isCompleted := Present(isCompleted)) else t)
  }

  /** `handleTodoUpdated`: the TODO with the updated one's id is replaced by it. */
  function Replaced(todos: seq<Todo>, updated: Todo): (r: seq<Todo>)
    ensures |r| == |todos|
    ensures forall i :: 0 <= i < |todos| ==>
      r[i] == (if todos[i].id == updated.id then updated else todos[i])
  {
    Map(todos, (t: Todo) => if t.id == updated.id then updated else t)
  }

  /** Replacing is idempotent, and after it every TODO with that id is the updated one. */
  lemma ReplacedTwice(todos: seq<Todo>, updated: Todo)
    ensures Replaced(Replaced(todos, updated), updated) == Replaced(todos, updated)
    ensures forall t :: t in Replaced(todos, updated) && t.id == updated.id ==> t == updated
  {
  }

  /** The ids of the list, in order. */
  function Ids(todos: seq<Todo>): (r: seq<string>)
    ensures |r| == |todos| && forall i :: 0 <= i < |todos| ==> r[i] == todos[i].id
  {
    Map(todos, (t: Todo) => t.id)
  }

  /** `filteredTodos`: the TODOs whose tags contain the selected tag, in their order; all of
      them when no tag (or the empty tag, which is falsy) is selected. */
  function Filtered(todos: seq<Todo>, selectedTag: Option<string>): (r: seq<Todo>)
    ensures selectedTag.None? || selectedTag.value == "" ==> r == todos
    ensures selectedTag.Some? && selectedTag.value != "" ==>
      forall t :: t in r <==> t in todos && selectedTag.value in TagsOf(t)
  {
    if selectedTag.Some? && selectedTag.value != "" then
      Filter(todos, (t: Todo) => selectedTag.value in TagsOf(t))
    else todos
  }

  /** Appending a TODO extends the filtered list by that TODO exactly when it carries the
      selected tag. */
  lemma FilteredAppend(todos: seq<Todo>, t: Todo, selectedTag: Option<string>)
    ensures Filtered(todos + [t], selectedTag) ==
      Filtered(todos, selectedTag) + (if Filtered([t], selectedTag) == [] then [] else [t])
  {
    if selectedTag.Some? && selectedTag.value != "" {
      FilterConcat(todos, [t], (u: Todo) => selectedTag.value in TagsOf(u));
    }
  }

  /** The tag lists of the TODOs, in list order. */
  function TagLists(todos: seq<Todo>): (r: seq<seq<string>>)
    ensures |r| == |todos| && forall i :: 0 <= i < |todos| ==> r[i] == TagsOf(todos[i])
  {
    Map(todos, TagsOf)
  }

  /** `allTags`: `Array.from(new Set(todos.flatMap((todo) => todo.tags)))`. */
  function AllTags(todos: seq<Todo>): (r: seq<string>)
    ensures Distinct(r)
    ensures forall tag :: tag in r <==> exists i :: 0 <= i < |todos| && tag in TagsOf(todos[i])
  {
    Dedup(Flatten(TagLists(todos)))
  }

  /** The tags of a prefix of the list come first in the union, in the same order. */
  lemma AllTagsPrefix(todos: seq<Todo>, k: nat)
    requires k <= |todos|
    ensures AllTags(todos[..k]) <= AllTags(todos)
  {
    var all := TagLists(todos);
    assert TagLists(todos[..k]) == all[..k];
    assert all == all[..k] + all[k..];
    FlattenConcat(all[..k], all[k..]);
    DedupPrefix(Flatten(all), |Flatten(all[..k])|);
    assert Flatten(all)[..|Flatten(all[..k])|] == Flatten(all[..k]);
  }

  /** A status change leaves the tag union as it is. */
  lemma StatusKeepsTags(todos: seq<Todo>, id: string, isCompleted: bool)
    ensures AllTags(WithStatus(todos, id, isCompleted)) == AllTags(todos)
  {
    assert TagLists(WithStatus(todos, id, isCompleted)) == TagLists(todos);
  }

  /** The request `handleStatusChange` sends: the found TODO's fields without its id, with
      the new completion state. */
  datatype StatusRequest = StatusRequest(
    id: string, description: Field<string>, dueDate: Field<string>,
    priority: Field<string>, tags: Field<seq<string>>, isCompleted: bool)

  /** `todos.find(todo => todo.id === id)`: the first TODO with that id. */
  function Find(todos: seq<Todo>, id: string): (r: Option<Todo>)
    ensures r.None? <==> forall i :: 0 <= i < |todos| ==> todos[i].id != id
    ensures r.Some? ==> r.value.id == id && r.value in todos
    ensures r.Some? ==> exists k :: 0 <= k < |todos| && todos[k] == r.value
                                    && forall j :: 0 <= j < k ==> todos[j].id != id
  {
    if |todos| == 0 then None
    else if todos[0].id == id then Some(todos[0])
    else
      var r := Find(todos[1..], id);
      if r.Some? then
        var k :| 0 <= k < |todos[1..]| && todos[1..][k] == r.value && forall j :: 0 <= j < k ==> todos[1..][j].id != id;
        assert todos[k + 1] == r.value && forall j :: 0 <= j < k + 1 ==> todos[j].id != id;
        r
      else r
  }

  class TodoList {
    var todos: seq<Todo>
    var selectedTag: Option<string>

    /** The initial state: no TODOs, no tag selected. */
    constructor()
      ensures todos == [] && selectedTag == None
    {
      todos := [];
      selectedTag := None;
    }

    /** `fetchTodos`: the list becomes the normalised fetched list. */
    method Load(data: seq<Todo>)
      modifies this
      ensures todos == GetTodos(data) && selectedTag == old(selectedTag)
      ensures forall i :: 0 <= i < |todos| ==> todos[i].tags.Present?
    {
      todos := GetTodos(data);
    }

    /** `handleDelete`. */
    method Delete(id: string)
      modifies this
      ensures todos == Deleted(old(todos), id) && selectedTag == old(selectedTag)
    {
      todos := Deleted(todos, id);
    }

    /** `handleStatusChange`: an unknown id makes no call and changes nothing; otherwise the
        update is sent, and only when the server accepts it does `is_completed` of the
        matching TODOs change. `request` is what is sent. */
    method StatusChange(id: string, isCompleted: bool, serverAccepts: bool) returns (request: Option<StatusRequest>)
      modifies this
      ensures request.None? <==> forall i :: 0 <= i < |old(todos)| ==> old(todos)[i].id != id
      ensures request.Some? ==>
        var t := Find(old(todos), id).value;
        request.value == StatusRequest(id, t.description, t.dueDate, t.priority, t.tags, isCompleted)
      ensures todos == if request.Some? && serverAccepts then WithStatus(old(todos), id, isCompleted) else old(todos)
      ensures selectedTag == old(selectedTag)
    {
      var todoToUpdate := Find(todos, id);
      if todoToUpdate.None? {
        return None;
      }
      var t := todoToUpdate.value;
      request := Some(StatusRequest(id, t.description, t.dueDate, t.priority, t.tags, isCompleted));
      if serverAccepts {
        todos := WithStatus(todos, id, isCompleted);
      } else {
        todos := todos[..];
      }
    }

    /** `handleTodoUpdated`. */
    method TodoUpdated(updated: Todo)
      modifies this
      ensures todos == Replaced(old(todos), updated) && selectedTag == old(selectedTag)
    {
      todos := Replaced(todos, updated);
    }

    /** `onTodoAdded`: the new TODO goes to the end. */
    method Add(newTodo: Todo)
      modifies this
      ensures todos == old(todos) + [newTodo] && selectedTag == old(selectedTag)
    {
      todos := todos + [newTodo];
    }

    /** Selecting a tag chip, or clearing the selection. */
    method SelectTag(tag: Option<string>)
      modifies this
      ensures selectedTag == tag && todos == old(todos)
    {
      selectedTag := tag;
    }

    function FilteredTodos(): seq<Todo>
      reads this
    {
      Filtered(todos, selectedTag)
    }

    function AllTagsOf(): seq<string>
      reads this
    {
      AllTags(todos)
    }
  }
}

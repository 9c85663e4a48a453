/** The TODO record as the frontend receives it, and the API client's normalisation of it
    (`exercises1/frontend/services/apiClient.ts`). A field of a JavaScript object can be
    missing (`undefined`), `null`, or hold a value. */
module TodoRecord {
  import opened Seqs

  datatype Field<T> = Undefined | Null | Present(value: T)

  datatype Todo = Todo(
    id: string,
    title: string,
    description: Field<string>,
    dueDate: Field<string>,
    isCompleted: Field<bool>,
    priority: Field<string>,
    tags: Field<seq<string>>)

  /** `f || fallback` for a string field: `undefined`, `null` and `""` are falsy. */
  function OrString(f: Field<string>, fallback: string): (r: string)
    ensures f.Present? && f.value != "" ==> r == f.value
    ensures !(f.Present? && f.value != "") ==> r == fallback
  {
    if f.Present? && f.value != "" then f.value else fallback
  }

  /** `f || []` for an array field: every array is truthy, so only a missing or `null`
      field falls back. */
  function OrList(f: Field<seq<string>>): (r: seq<string>)
    ensures f.Present? ==> r == f.value
    ensures !f.Present? ==> r == []
  {
    if f.Present? then f.value else []
  }

  /** The shape `normalizeTodo` guarantees: a truthy priority, an `is_completed` that is
      not missing, and a tag array. */
  predicate Normalized(t: Todo)
  {
    t.priority.Present? && t.priority.value != "" && !t.isCompleted.Undefined? && t.tags.Present?
  }

  /** `normalizeTodo`: a falsy priority becomes "low", a missing `is_completed` becomes
      false (a `null` one is kept), a missing tag array becomes [], and every other field is
      kept. */
  function NormalizeTodo(t: Todo): (r: Todo)
    ensures Normalized(r)
    ensures r.id == t.id && r.title == t.title && r.description == t.description && r.dueDate == t.dueDate
    ensures r.priority == Present(OrString(t.priority, "low"))
    ensures r.isCompleted == if t.isCompleted.Undefined? then Present(false) else t.isCompleted
    ensures r.tags == Present(OrList(t.tags))
    ensures Normalized(t) ==> r == t
  {
    t.(priority := Present(OrString(t.priority, "low")),
       isCompleted := if t.isCompleted.Undefined? then Present(false) else t.isCompleted,
       tags := Present(OrList(t.tags)))
  }

  /** Normalising twice is normalising once. */
  lemma NormalizeIdempotent(t: Todo)
    ensures NormalizeTodo(NormalizeTodo(t)) == NormalizeTodo(t)
  {
  }

  /** `getTodos`: the fetched list, normalised element by element. */
  function GetTodos(data: seq<Todo>): (r: seq<Todo>)
    ensures |r| == |data|
    ensures forall i :: 0 <= i < |data| ==> Normalized(r[i]) && r[i].id == data[i].id && r[i].title == data[i].title
  {
    Map(data, NormalizeTodo)
  }

  /** A fetched list that is already normalised is kept as it is, in its order. */
  lemma GetTodosNormalized(data: seq<Todo>)
    requires forall i :: 0 <= i < |data| ==> Normalized(data[i])
    ensures GetTodos(data) == data
  {
  }

  /** The defaults both TODO forms apply to the record the API returns
      (`priority || "low"`, `tags || []`). */
  function WithFormDefaults(t: Todo): (r: Todo)
    ensures r.priority.Present? && r.priority.value != "" && r.tags.Present?
    ensures r.(priority := t.priority, tags := t.tags) == t
  {
    t.(priority := Present(OrString(t.priority, "low")), tags := Present(OrList(t.tags)))
  }

  /** The API client already normalises, so the form defaults change nothing on its
      results. */
  lemma FormDefaultsAfterNormalize(t: Todo)
    ensures WithFormDefaults(NormalizeTodo(t)) == NormalizeTodo(t)
  {
  }
}

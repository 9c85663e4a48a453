/** The two TODO form components (`exercises1/frontend/components/AddTodoForm.tsx` and
    `EditTodoForm.tsx`) as objects whose fields are the component state. The API call is an
    input: the response data it would give, or the failure message it would raise. */
module TodoForms {
  import opened Wrappers
  import opened Strings
  import opened TodoRecord
  import opened TodoFormRules

  /** What the API call gives: the response data, or a failure carrying
      `error?.response?.data?.message`. */
  datatype ApiOutcome = ApiOk(data: Todo) | ApiFailed(message: Field<string>)

  /** The body `createTodo` is called with. */
  datatype CreateRequest = CreateRequest(
    title: string, description: string, dueDate: string, priority: string, tags: seq<string>)

  /** The body `updateTodo` is called with, and the id it is called for. */
  datatype UpdateRequest = UpdateRequest(
    id: string, title: string, description: string, dueDate: string,
    isCompleted: Field<bool>, priority: Field<string>, tags: seq<string>)

  class AddTodoForm {
    var title: string
    var description: string
    var dueDate: string
    var priority: string
    var tags: string
    var loading: bool
    var error: Option<string>
    var validationErrors: ValidationErrors

    /** The initial state: empty fields, priority "low", no errors. */
    constructor()
      ensures title == "" && description == "" && dueDate == "" && priority == "low" && tags == ""
      ensures !loading && error == None && validationErrors == NoErrors
    {
      title, description, dueDate, priority, tags := "", "", "", "low", "";
      loading, error, validationErrors := false, None, NoErrors;
    }

    /** `validateForm`: records the errors of the current fields and reports whether there
        are none; nothing else changes. */
    method Validate() returns (isValid: bool)
      modifies this
      ensures validationErrors == ExpectedErrors(title, description, dueDate, tags)
      ensures isValid <==> validationErrors == NoErrors
      ensures title == old(title) && description == old(description) && dueDate == old(dueDate)
      ensures priority == old(priority) && tags == old(tags)
      ensures loading == old(loading) && error == old(error)
    {
      var errors;
      errors, isValid := ValidateForm(title, description, dueDate, tags);
      validationErrors := errors;
    }

    /** The tag chip's remove button. */
    method RemoveTagAt(index: nat)
      modifies this
      ensures tags == RemoveTag(old(tags), index)
      ensures ParseTags(tags) == Splice(ParseTags(old(tags)), index)
      ensures title == old(title) && description == old(description) && dueDate == old(dueDate)
      ensures priority == old(priority) && loading == old(loading) && error == old(error)
      ensures validationErrors == old(validationErrors)
    {
      tags := RemoveTag(tags, index);
    }

    /** `handleSubmit`: validate; when valid, create the TODO from the parsed tag list, hand
        the result (with the form defaults) to `onTodoAdded` and reset every field, or show
        the failure message. `added` is what `onTodoAdded` receives. */
    method Submit(outcome: ApiOutcome) returns (request: Option<CreateRequest>, added: Option<Todo>)
      modifies this
      ensures validationErrors == (if added.Some? then NoErrors
                                   else ExpectedErrors(old(title), old(description), old(dueDate), old(tags)))
      ensures request.Some? <==> ExpectedErrors(old(title), old(description), old(dueDate), old(tags)) == NoErrors
      ensures request.Some? ==>
        request.value == CreateRequest(old(title), old(description), old(dueDate), old(priority), ParseTags(old(tags)))
      ensures added.Some? <==> request.Some? && outcome.ApiOk?
      ensures added.Some? ==> added.value == WithFormDefaults(NormalizeTodo(outcome.data))
      ensures added.Some? ==>
        title == "" && description == "" && dueDate == "" && priority == "low" && tags == "" && error == None
      ensures added.None? ==>
        title == old(title) && description == old(description) && dueDate == old(dueDate)
        && priority == old(priority) && tags == old(tags)
      ensures request.None? ==> error == old(error) && loading == old(loading)
      ensures request.Some? ==> !loading
      ensures request.Some? && outcome.ApiFailed? ==> error == Some(OrString(outcome.message, "Failed to add Todo"))
    {
      request, added := None, None;
      var isValid := Validate();
      if !isValid {
        return;
      }

      loading := true;
      error := None;

      request := Some(CreateRequest(title, description, dueDate, priority, ParseTags(tags)));
      match outcome {
        case ApiOk(data) =>
          var newTodo := NormalizeTodo(data);
          added := Some(WithFormDefaults(newTodo));
          title := "";
          description := "";
          dueDate := "";
          priority := "low";
          tags := "";
          validationErrors := NoErrors;
        case ApiFailed(message) =>
          error := Some(OrString(message, "Failed to add Todo"));
      }
      loading := false;
    }
  }

  class EditTodoForm {
    const id: string
    var title: string
    var description: string
    var dueDate: string
    var isCompleted: Field<bool>
    var priority: Field<string>
    var tags: string
    var loading: bool
    var error: Option<string>
    var validationErrors: ValidationErrors
    var closed: bool

    /** The state is seeded from the TODO being edited; its tag list is shown joined with
        ", ", which the parser reads back as the same list. */
    constructor(todo: Todo)
      requires todo.tags.Present?
      ensures id == todo.id && title == todo.title
      ensures description == OrString(todo.description, "") && dueDate == OrString(todo.dueDate, "")
      ensures isCompleted == todo.isCompleted && priority == todo.priority
      ensures tags == Join(todo.tags.value, ", ")
      ensures (forall i :: 0 <= i < |todo.tags.value| ==> CleanTag(todo.tags.value[i])) ==>
                ParseTags(tags) == todo.tags.value
      ensures !loading && error == None && validationErrors == NoErrors && !closed
    {
      id, title := todo.id, todo.title;
      description, dueDate := OrString(todo.description, ""), OrString(todo.dueDate, "");
      isCompleted, priority := todo.isCompleted, todo.priority;
      tags := Join(todo.tags.value, ", ");
      loading, error, validationErrors, closed := false, None, NoErrors, false;
      if forall i :: 0 <= i < |todo.tags.value| ==> CleanTag(todo.tags.value[i]) {
        ParseJoin(todo.tags.value);
      }
    }

    /** `validateForm`: records the errors of the current fields and reports whether there
        are none; nothing else changes. */
    method Validate() returns (isValid: bool)
      modifies this
      ensures validationErrors == ExpectedErrors(title, description, dueDate, tags)
      ensures isValid <==> validationErrors == NoErrors
      ensures title == old(title) && description == old(description) && dueDate == old(dueDate)
      ensures isCompleted == old(isCompleted) && priority == old(priority) && tags == old(tags)
      ensures loading == old(loading) && error == old(error) && closed == old(closed)
    {
      var errors;
      errors, isValid := ValidateForm(title, description, dueDate, tags);
      validationErrors := errors;
    }

    /** The tag chip's remove button. */
    method RemoveTagAt(index: nat)
      modifies this
      ensures tags == RemoveTag(old(tags), index)
      ensures ParseTags(tags) == Splice(ParseTags(old(tags)), index)
      ensures title == old(title) && description == old(description) && dueDate == old(dueDate)
      ensures isCompleted == old(isCompleted) && priority == old(priority)
      ensures loading == old(loading) && error == old(error)
      ensures validationErrors == old(validationErrors) && closed == old(closed)
    {
      tags := RemoveTag(tags, index);
    }

    /** `handleSubmit`: an invalid form makes no update call; otherwise the TODO is updated
        with the parsed tag list, the result (with the form defaults) goes to
        `onTodoUpdated` and the form closes, or the failure message is shown. */
    method Submit(outcome: ApiOutcome) returns (request: Option<UpdateRequest>, updated: Option<Todo>)
      modifies this
      ensures validationErrors == ExpectedErrors(old(title), old(description), old(dueDate), old(tags))
      ensures request.Some? <==> validationErrors == NoErrors
      ensures request.Some? ==>
        request.value == UpdateRequest(id, old(title), old(description), old(dueDate),
                                       old(isCompleted), old(priority), ParseTags(old(tags)))
      ensures updated.Some? <==> request.Some? && outcome.ApiOk?
      ensures updated.Some? ==> updated.value == WithFormDefaults(NormalizeTodo(outcome.data))
      ensures updated.Some? ==> updated.value.priority.Present? && updated.value.tags.Present?
      ensures closed <==> old(closed) || updated.Some?
      ensures title == old(title) && description == old(description) && dueDate == old(dueDate)
      ensures isCompleted == old(isCompleted) && priority == old(priority) && tags == old(tags)
      ensures request.None? ==> error == old(error) && loading == old(loading)
      ensures request.Some? ==> !loading
      ensures request.Some? && outcome.ApiOk? ==> error == None
      ensures request.Some? && outcome.ApiFailed? ==> error == Some(OrString(outcome.message, "Failed to update Todo"))
    {
      request, updated := None, None;
      var isValid := Validate();
      if !isValid {
        return;
      }

      loading := true;
      error := None;

      request := Some(UpdateRequest(id, title, description, dueDate, isCompleted, priority, ParseTags(tags)));
      match outcome {
        case ApiOk(data) =>
          var updatedTodo := NormalizeTodo(data);
          updated := Some(WithFormDefaults(updatedTodo));
          closed := true;
        case ApiFailed(message) =>
          error := Some(OrString(message, "Failed to update Todo"));
      }
      loading := false;
    }
  }
}

# learning-samcli core logic in Dafny

This project models the self-contained logic of the learning-samcli teaching
repository in Dafny: the AWS Lambda handlers written in Python and the Next.js screens
and libraries written in TypeScript. Each core source file becomes one Dafny module.
Shared modules supply the language primitives those files rely on:

- `Wrappers`: `Option` and `Result`.
- `Strings`: Python's and JavaScript's `split`, `join`, `strip`/`trim`, `rstrip`,
  `startswith` and `removeprefix`, and `str()` of an integer.
- `Seqs`: JavaScript's `map`, `filter`, `flatMap` and `new Set`.
- `JsonValue`: decoded JSON values, Python truthiness and `dict.get`,
  `json.loads` of an event body, and the API Gateway response.
- `UpdateExpressions`: DynamoDB `SET` update expressions, and how DynamoDB applies them.

The services the code calls are not modelled as services. DynamoDB tables and the
Cognito user pool are maps or sequences. The outcome of each call is a parameter: a
Cognito callback, a `fetch` result, a JWT verdict, a table fault, a clock reading or a
UUID. Code that updates state step by step is written as methods:

- the `expanded` loop of the authorizers;
- the field-by-field update-expression builders;
- `validateForm`;
- the attribute `forEach`.

Screen and store state that the source changes in place is kept in classes:

- the two TODO forms;
- the TODO list;
- the new-password form;
- the cookie store of `libs/auth.ts`.

Each method is proved against a specification function. The specification functions
carry the lemmas. Among them:

- the half-width to full-width conversion is idempotent;
- the authorizer expands one ARN per operation, in input order;
- tag text round-trips through `join(", ")` and the tag parser;
- the update expressions always start with "SET" and never end in ", ";
- a placeholder appears in the expression exactly when its key is in the value map;
- `todo#` key prefixes round-trip;
- the comment sort key splits back into its time and id;
- `allowed_operations` survives the comma join;
- form encoding decodes back to the UTF-8 bytes of the text;
- sign-out is idempotent;
- the route guard never redirects a request to the path it came from.

The route guard records the original path under the query key `from`
(`exercises2/frontend/src/middleware.ts:28`).

## Model

| member | source | states |
|---|---|---|
| Convert.ConvertMatch | lecture1/convert/app.py:15-19 | every character the pattern matches lies 0xFEE0 below its full-width counterpart |
| Convert.Converted | lecture1/convert/app.py:5-20 | an ASCII digit moves up by 0xFEE0; `/ - ( ) : ;` map to their full-width forms; every other character is unchanged |
| Convert.ConvertedNotPattern | lecture1/convert/app.py:18-25 | a converted character never matches the pattern again |
| Convert.ReplaceText | lecture1/convert/app.py:23-26 | the output has the input's length and converts it character by character |
| Convert.OutputHasNoPatternChar | lecture1/convert/app.py:23-26 | no character of the output matches the pattern |
| Convert.ReplaceTextIdempotent | lecture1/tests/unit/convert/test_handler.py:43 | converting twice is converting once |
| Convert.ConvertsTo | lecture1/convert/app.py:23-26 | a text of the same length that agrees with the per-character conversion is the output |
| Convert.DigitsExample | lecture1/tests/unit/convert/test_handler.py:38 | "123" becomes "１２３" |
| Convert.RangeExample | lecture1/tests/unit/convert/test_handler.py:40 | "0-9" becomes "０－９" |
| Convert.DateSentenceExample | lecture1/tests/unit/convert/test_handler.py:41 | the date sentence gets full-width digits and slashes |
| Convert.FullWidthExample | lecture1/tests/unit/convert/test_handler.py:43 | a text that is already full-width is unchanged |
| Convert.Handle | lecture1/convert/app.py:29-62 | 200 exactly for a JSON object whose `message` is a string with a non-whitespace character, with the converted text; every other answer has an `error` key |
| Convert.BlankMessageRejected | lecture1/convert/app.py:34-42 | an empty or whitespace-only message gets 400 with an `error` key |
| Authorizer.GeneratePolicy | exercises2/backend/services/Authorizer/app.py:147-166 | one `execute-api:Invoke` statement with the effect and resources; `context` is present exactly when a non-empty one is given |
| Authorizer.MethodArnPrefixShape | exercises2/backend/services/Authorizer/app.py:122-136 | the prefix is the first two "/"-segments of the method ARN, and the ARN starts with it followed by "/" or nothing |
| Authorizer.FirstIndex | exercises2/backend/services/Authorizer/app.py:127 | the first position of the character, or none when it is absent |
| Authorizer.SplitOperation | exercises2/backend/services/Authorizer/app.py:127 | `split(" ", 1)` fails exactly when there is no space; otherwise the operation is the method, a space and the rest, and the method has no space |
| Authorizer.OperationArn | exercises2/backend/services/Authorizer/app.py:127-130 | an operation expands exactly when it contains a space |
| Authorizer.OperationArnShape | exercises2/backend/services/Authorizer/app.py:127-130 | the ARN is base + "/" + METHOD + path, with a "/" put in front of a path that lacks one |
| Authorizer.ExpandAllowedOperations | exercises2/backend/services/Authorizer/app.py:118-132 | succeeds exactly when every operation has a space; then one ARN per operation, in input order, each the operation's expansion under the method-ARN prefix |
| Authorizer.Authorize | exercises2/backend/services/Authorizer/app.py:46-106 | an invalid token or a missing or empty claim gives Deny on the method ARN for "unauthorized"; no role gives Deny for `sub`; a super user gets Allow on prefix + "/*/*"; others get Allow on their expanded ARNs; `username` goes in the context |
| Lecture7Authorizer.Claim | lecture7/services/Authorizer/app.py:19-20 | `claims.get(name)`: present exactly when the claim is |
| Lecture7Authorizer.Authorize | lecture7/services/Authorizer/app.py:11-39 | a decode failure gives Deny for "unauthorized"; a missing role id or role gives Deny for `sub`; a super user gets the "/*/*" Allow; others get their expanded ARNs; never a context |
| TodoFormRules.TrimPieces | exercises1/frontend/components/AddTodoForm.tsx:57 | trimmed non-empty pieces with no whitespace at either end, no more than the pieces, comma-free when the pieces are |
| TodoFormRules.ParseTags | exercises1/frontend/components/AddTodoForm.tsx:57 | every parsed tag is non-empty, trimmed and comma-free |
| TodoFormRules.TrimPiecesIsMapFilter | exercises1/frontend/components/AddTodoForm.tsx:57 | the parser is `map(trim)` followed by `filter(non-empty)` |
| TodoFormRules.ParseEmpty | exercises1/frontend/components/AddTodoForm.tsx:90 | an empty tag text gives no tags |
| TodoFormRules.JoinCommaSpace | exercises1/frontend/components/EditTodoForm.tsx:25 | joining with ", " is joining with "," after putting a space before every tag but the first |
| TodoFormRules.TrimSpaced | exercises1/frontend/components/EditTodoForm.tsx:25 | trimming the spaced pieces of clean tags gives the tags back |
| TodoFormRules.SpacedCommaFree | exercises1/frontend/components/EditTodoForm.tsx:25 | the spaced pieces of clean tags contain no comma |
| TodoFormRules.SplitSpaced | exercises1/frontend/components/EditTodoForm.tsx:25 | the ", "-joined text splits on "," into the spaced pieces |
| TodoFormRules.ParseJoin | exercises1/frontend/components/EditTodoForm.tsx:25 | round trip: clean tags shown joined with ", " parse back to the same list |
| TodoFormRules.Splice | exercises1/frontend/components/AddTodoForm.tsx:183 | removes exactly the entry at the index and keeps the rest in order; an index past the end removes nothing |
| TodoFormRules.RemoveTag | exercises1/frontend/components/AddTodoForm.tsx:181-185 | the new tag text parses to the old tag list with that one entry removed |
| TodoFormRules.ValidIff | exercises1/frontend/components/AddTodoForm.tsx:27-72 | no error exactly when the title is non-blank and at most 100 characters, the description at most 500, the date non-empty and `\d{4}-\d{2}-\d{2}`, and the tags at most 10 of at most 20 characters |
| TodoFormRules.LongTagsIff | exercises1/frontend/components/AddTodoForm.tsx:62-63 | the list of long tags is non-empty exactly when some tag is over 20 characters |
| TodoFormRules.ValidateForm | exercises1/frontend/components/AddTodoForm.tsx:27-72 | the errors recorded step by step are the field-by-field errors, and `isValid` holds exactly when there are none |
| TodoForms.AddTodoForm.constructor | exercises1/frontend/components/AddTodoForm.tsx:18-25 | empty fields, priority "low", no errors, not loading |
| TodoForms.AddTodoForm.Validate | exercises1/frontend/components/AddTodoForm.tsx:27-72 | records the field errors, reports validity, and changes no field |
| TodoForms.AddTodoForm.RemoveTagAt | exercises1/frontend/components/AddTodoForm.tsx:181-185 | the tag list loses exactly the entry at the index; nothing else changes |
| TodoForms.AddTodoForm.Submit | exercises1/frontend/components/AddTodoForm.tsx:74-108 | an invalid form sends nothing; a valid one sends the fields with the parsed tags; success hands on the TODO with its defaults and resets every field (priority "low"); failure shows the message or "Failed to add Todo"; loading ends false |
| TodoForms.EditTodoForm.constructor | exercises1/frontend/components/EditTodoForm.tsx:20-28 | seeded from the TODO, with missing description and date as "" and the tags joined with ", " |
| TodoForms.EditTodoForm.Validate | exercises1/frontend/components/EditTodoForm.tsx:30-75 | records the field errors, reports validity, and changes no field |
| TodoForms.EditTodoForm.RemoveTagAt | exercises1/frontend/components/EditTodoForm.tsx:191-195 | the tag list loses exactly the entry at the index; nothing else changes |
| TodoForms.EditTodoForm.Submit | exercises1/frontend/components/EditTodoForm.tsx:77-107 | an invalid form makes no update call; a valid one sends the fields and parsed tags; the result falls back to priority "low" and tags [] and closes the form; failure shows the message or "Failed to update Todo" |
| TodoListScreen.Deleted | exercises1/frontend/components/TodoList.tsx:34-36 | keeps exactly the TODOs with another id |
| TodoListScreen.DeleteAbsent | exercises1/frontend/components/TodoList.tsx:35 | deleting an id no TODO carries changes nothing |
| TodoListScreen.DeleteConcat | exercises1/frontend/components/TodoList.tsx:35 | deletion works element by element, so the survivors keep their order |
| TodoListScreen.WithStatus | exercises1/frontend/components/TodoList.tsx:55-62 | same length; the TODOs with the id change only `is_completed`, the others are unchanged |
| TodoListScreen.Replaced | exercises1/frontend/components/TodoList.tsx:75-82 | same length and order; the TODOs with the updated one's id become it, the others are unchanged |
| TodoListScreen.ReplacedTwice | exercises1/frontend/components/TodoList.tsx:75-80 | replacing is idempotent, and afterwards every TODO with that id is the updated one |
| TodoListScreen.Filtered | exercises1/frontend/components/TodoList.tsx:84-86 | with no tag or an empty tag selected, all TODOs; otherwise exactly those whose tags contain it, in order |
| TodoListScreen.FilteredAppend | exercises1/frontend/components/TodoList.tsx:84-86 | appending a TODO extends the filtered list by it exactly when it passes the filter |
| TodoListScreen.AllTags | exercises1/frontend/components/TodoList.tsx:88 | the union of all tags, without repetition |
| TodoListScreen.AllTagsPrefix | exercises1/frontend/components/TodoList.tsx:88 | the tags of earlier TODOs come first, in first-occurrence order |
| TodoListScreen.StatusKeepsTags | exercises1/frontend/components/TodoList.tsx:55-62 | a status change leaves the tag union as it is |
| TodoListScreen.Find | exercises1/frontend/components/TodoList.tsx:41 | none exactly when no TODO has the id; otherwise a TODO of the list with that id |
| TodoListScreen.TodoList.constructor | exercises1/frontend/components/TodoList.tsx:11-12 | no TODOs and no tag selected |
| TodoListScreen.TodoList.Load | exercises1/frontend/components/TodoList.tsx:19-28 | the list becomes the normalised fetched list, every TODO with a tag array |
| TodoListScreen.TodoList.Delete | exercises1/frontend/components/TodoList.tsx:34-36 | the list loses exactly the TODOs with the id |
| TodoListScreen.TodoList.StatusChange | exercises1/frontend/components/TodoList.tsx:38-68 | an unknown id sends nothing and changes nothing; otherwise the found TODO's fields go out with the new status, and only an accepted update changes `is_completed` of the matching TODOs |
| TodoListScreen.TodoList.TodoUpdated | exercises1/frontend/components/TodoList.tsx:75-82 | the matching TODOs are replaced |
| TodoListScreen.TodoList.Add | exercises1/frontend/components/TodoList.tsx:407-409 | the new TODO is appended at the end |
| TodoListScreen.TodoList.SelectTag | exercises1/frontend/components/TodoList.tsx:356-368 | the selection changes and the list does not |
| TodoRecord.OrString | exercises1/frontend/services/apiClient.ts:31 | `f \|\| fallback`: the value when it is a non-empty string, else the fallback |
| TodoRecord.OrList | exercises1/frontend/services/apiClient.ts:33 | `f \|\| []`: the array when present, else [] |
| TodoRecord.NormalizeTodo | exercises1/frontend/services/apiClient.ts:29-34 | a falsy priority becomes "low"; `is_completed` becomes false only when undefined; missing tags become []; other fields are kept; a normalised TODO is unchanged |
| TodoRecord.NormalizeIdempotent | exercises1/frontend/services/apiClient.ts:29-34 | normalising twice is normalising once |
| TodoRecord.GetTodos | exercises1/frontend/services/apiClient.ts:41-44 | same length and order, each element normalised with its id and title kept |
| TodoRecord.GetTodosNormalized | exercises1/frontend/services/apiClient.ts:41-44 | an already normalised list comes back unchanged |
| TodoRecord.WithFormDefaults | exercises1/frontend/components/AddTodoForm.tsx:92-96 | a truthy priority and a tag array, every other field unchanged |
| TodoRecord.FormDefaultsAfterNormalize | exercises1/frontend/components/EditTodoForm.tsx:96-100 | on a normalised TODO the forms' defaults change nothing |
| TodoSchemas.CreateTitleBounds | exercises1/backend/todo_service/CreateTodo/schema.py:5-11 | a title-only body is valid exactly when the title has 1 to 100 characters |
| TodoSchemas.CreateDescriptionTooLong | exercises1/backend/todo_service/CreateTodo/schema.py:12-16 | a 501-character description is rejected |
| TodoSchemas.CreateTooManyTags | exercises1/backend/todo_service/CreateTodo/schema.py:33-41 | eleven tags are rejected |
| TodoSchemas.CreateSlashDateRejected | exercises1/backend/todo_service/CreateTodo/schema.py:17-21 | "2025/04/10" is not a `date` |
| TodoSchemas.UpdateNulls | exercises1/backend/todo_service/UpdateTodo/schema.py:1-53 | an empty update is valid; every property may be null except `priority`, whose enum excludes null |
| TodoSchemas.UpdateUnknownRejected | exercises1/backend/todo_service/UpdateTodo/schema.py:52 | an unknown property makes an update invalid |
| TodoSchemas.UpdateCompletedIsBoolOrNull | exercises1/backend/todo_service/UpdateTodo/schema.py:29-35 | a valid update's `is_completed` is a boolean or null |
| CreateTodoHandler.NewItem | exercises1/backend/todo_service/CreateTodo/app.py:85-105 | the stored item has the id and every given field, with defaults description "", due_date null, is_completed false, priority "medium", tags [] |
| CreateTodoHandler.Handle | exercises1/backend/todo_service/CreateTodo/app.py:61-124 | a schema failure gives 400 and writes nothing; a put failure gives 500; otherwise the item is stored under the new id and the 201 body carries the same values |
| CreateTodoHandler.StoredItemValid | exercises1/backend/todo_service/CreateTodo/app.py:85-90 | every default is a value the create schema admits |
| CreateTodoHandler.MinimalCreate | exercises1/backend/tests/integration/test_api_gateway.py:289-316 | a title-only request answers 201 with the defaults and stores the TODO |
| UpdateTodoHandler.Optional | exercises1/backend/todo_service/UpdateTodo/app.py:98-110 | one clause for a field exactly when it is given and not null, with its value |
| UpdateTodoHandler.CompletedValue | exercises1/backend/todo_service/UpdateTodo/app.py:112-129 | missing or null gives false; a boolean is kept; anything else is the 400 case |
| UpdateTodoHandler.UpdateAssignments | exercises1/backend/todo_service/UpdateTodo/app.py:94-139 | every assignment's placeholder survives `rstrip` |
| UpdateTodoHandler.AssignmentsShape | exercises1/backend/todo_service/UpdateTodo/app.py:97-139 | each given non-null field is written with its value, `is_completed` always, and nothing else |
| UpdateTodoHandler.AssignmentsDistinct | exercises1/backend/todo_service/UpdateTodo/app.py:97-139 | no field is written twice |
| UpdateTodoHandler.SchemaAdmitsAssignments | exercises1/backend/todo_service/UpdateTodo/app.py:119-125 | after the schema the non-boolean `is_completed` branch is unreachable |
| UpdateTodoHandler.StrippedIsExpression | exercises1/backend/todo_service/UpdateTodo/app.py:142 | `rstrip(', ')` of the built text is "SET " and the clauses joined with ", " |
| UpdateTodoHandler.AddGiven | exercises1/backend/todo_service/UpdateTodo/app.py:98-100 | adds a field's clause and value exactly when it is given non-null, keeping text and values in step |
| UpdateTodoHandler.BuildUpdate | exercises1/backend/todo_service/UpdateTodo/app.py:93-142 | the step-by-step expression and value map are the expression and values of the assignments |
| UpdateTodoHandler.UpdatedKeepsOthers | exercises1/backend/tests/integration/test_api_gateway.py:346-377 | a field not given keeps its stored value |
| UpdateTodoHandler.UpdatedSetsGiven | exercises1/backend/todo_service/UpdateTodo/app.py:146-154 | every given non-null field holds its new value, and `is_completed` the chosen one |
| UpdateTodoHandler.ResponseBody | exercises1/backend/todo_service/UpdateTodo/app.py:164-173 | the answer has the stored values, with defaults description "", due_date null, is_completed false, priority "medium", tags []; none without `id` or `title` |
| UpdateTodoHandler.Handle | exercises1/backend/todo_service/UpdateTodo/app.py:59-176 | a schema failure gives 400 before any update; a missing item gives 404; a fault gives 500; otherwise the item is updated and answered |
| UpdateTodoHandler.Respond | exercises1/backend/todo_service/UpdateTodo/app.py:164-176 | 200 with the response body, or an escaping exception when it holds a number |
| UpdateExpressions.ClauseDeterminesAssignment | lecture7/services/TodoService/UpdateTodo/app.py:48 | for references without spaces, two equal "ref = :name" clauses have the same reference and the same placeholder name |
| UpdateExpressions.ValuesOf | lecture7/services/TodoService/UpdateTodo/app.py:49 | a key is in the value map exactly when some assignment has that placeholder |
| UpdateExpressions.Step | lecture7/services/TodoService/UpdateTodo/app.py:46-49 | one more assignment adds its clause and ", " to the text and its value under its placeholder |
| UpdateExpressions.AddClause | lecture7/services/TodoService/UpdateTodo/app.py:46-49 | `add_update_expr` keeps the text and value map equal to those of the assignments made so far |
| UpdateExpressions.Clauses | lecture7/services/TodoService/UpdateTodo/app.py:48 | one clause per assignment, in order |
| UpdateExpressions.PendingJoin | lecture7/services/TodoService/UpdateTodo/app.py:43-62 | the built text is "SET " and the clauses joined with ", ", plus a trailing ", " |
| UpdateExpressions.RStripTail | lecture7/services/TodoService/UpdateTodo/app.py:62 | `rstrip` removes a tail of stripped characters and stops at a kept one |
| UpdateExpressions.Expression | lecture7/services/TodoService/UpdateTodo/app.py:62 | "SET " and the clauses joined with ", ", or "SET" alone; never ending in "," or " " |
| UpdateExpressions.JoinLast | lecture7/services/TodoService/UpdateTodo/app.py:62 | a join ends with its last part |
| UpdateExpressions.DistinctConcat | exercises1/backend/todo_service/UpdateTodo/app.py:97-139 | two lists that write disjoint attributes, each at most once, do so together |
| UpdateExpressions.Apply | lecture7/services/TodoService/UpdateTodo/app.py:65-71 | the item keeps its attributes and gains every target |
| UpdateExpressions.ApplyKeeps | lecture7/services/TodoService/UpdateTodo/app.py:65-71 | an attribute no clause targets keeps its value, or stays absent |
| UpdateExpressions.ApplySets | lecture7/services/TodoService/UpdateTodo/app.py:65-71 | an attribute holds the value of the last clause that targets it |
| Lecture7UpdateTodo.TodoIdRoundTrip | lecture7/services/TodoService/UpdateTodo/app.py:33-75 | removing "todo#" from the stored key gives back the path id |
| Lecture7UpdateTodo.Present | lecture7/services/TodoService/UpdateTodo/app.py:51-53 | only listed fields that are keys of the body, each with its value |
| Lecture7UpdateTodo.PresentIff | lecture7/services/TodoService/UpdateTodo/app.py:51-53 | a listed field is written exactly when its key is in the body, null included |
| Lecture7UpdateTodo.Completed | lecture7/services/TodoService/UpdateTodo/app.py:56-60 | the given boolean, else false |
| Lecture7UpdateTodo.AssignmentsShape | lecture7/services/TodoService/UpdateTodo/app.py:46-60 | `is_completed` last; never `todo_id` or `user_id`; a listed field written exactly when present |
| Lecture7UpdateTodo.BuildUpdate | lecture7/services/TodoService/UpdateTodo/app.py:43-62 | the loop's expression and value map are those of the assignments |
| Lecture7UpdateTodo.UpdatedHoldsKey | lecture7/services/TodoService/UpdateTodo/app.py:65-71 | the update keeps `user_id` and `todo_id` |
| Lecture7UpdateTodo.UpdateKeepsKeys | lecture7/services/TodoService/UpdateTodo/app.py:65-71 | every item of the table still holds its key after an update |
| Lecture7UpdateTodo.Answer | lecture7/services/TodoService/UpdateTodo/app.py:72-77 | the answer's `todo_id` is the path id, every other attribute as stored |
| Lecture7UpdateTodo.Reply | lecture7/services/TodoService/UpdateTodo/app.py:72-83 | 200 with the answer exactly when it holds no number; else 500 |
| Lecture7UpdateTodo.Handle | lecture7/services/TodoService/UpdateTodo/app.py:29-83 | invalid JSON or a schema failure gives 400; update_item is called with the expression of the present fields; a missing item gives 404; a fault gives 500; every item keeps its key |
| Lecture7UpdateTodo.UpdateItem | lecture7/services/TodoService/UpdateTodo/app.py:42-83 | after validation: the call, and 500, 404 or the reply on the updated item |
| Lecture7UpdateTodo.Respond | lecture7/services/TodoService/UpdateTodo/app.py:72-77 | the reply for the updated item |
| UpdateRoleHandler.RoleAssignments | lecture8/services/RoleService/UpdateRole/app.py:22-43 | every placeholder survives `rstrip` |
| UpdateRoleHandler.AddName | lecture8/services/RoleService/UpdateRole/app.py:32-35 | adds "#name = :name", the value and the alias together |
| UpdateRoleHandler.AddGivenField | lecture8/services/RoleService/UpdateRole/app.py:37-43 | adds a field's clause and value exactly when its `body.get` is not `None`, keeping text and values in step |
| UpdateRoleHandler.BuildUpdate | lecture8/services/RoleService/UpdateRole/app.py:26-46 | the expression and values of the given fields; the alias map is {"#name": "name"} exactly when `name` is given |
| UpdateRoleHandler.StrippedIsExpression | lecture8/services/RoleService/UpdateRole/app.py:46 | `rstrip(', ')` of the built text is the expression |
| UpdateRoleHandler.NoFieldsGiveBareSet | lecture8/services/RoleService/UpdateRole/app.py:27-46 | with no field given, the expression is "SET" and the value map is empty |
| UpdateRoleHandler.StoreUpdate | lecture8/services/RoleService/UpdateRole/app.py:50-72 | `None` names are refused; the update succeeds exactly with clauses, no empty alias map, no fault and an existing role |
| UpdateRoleHandler.AsWrittenNamesArgument | lecture8/services/RoleService/UpdateRole/app.py:56 | an empty alias map becomes `None` |
| UpdateRoleHandler.NamesArgumentFor | lecture8/services/RoleService/UpdateRole/app.py:56 | an empty alias map leaves the argument out |
| UpdateRoleHandler.AsWrittenRejectsUpdateWithoutName | lecture8/services/RoleService/UpdateRole/app.py:56 | as written, an update without `name` is refused |
| UpdateRoleHandler.IntendedUpdateSucceeds | lecture8/services/RoleService/UpdateRole/app.py:50-59 | with the argument left out, every update with a field reaches an existing role |
| UpdateRoleHandler.UpdatedRole | lecture8/services/RoleService/UpdateRole/app.py:32-43 | each given field holds its value (`name` through its alias); every other attribute is unchanged |
| UpdateRoleHandler.ApplyUpdate | lecture8/services/RoleService/UpdateRole/app.py:50-81 | the `update_item` outcome decides the answer: the updated table and 200 with the `role_id`, 404 for a missing role, 500 "Failed to update role" for every other failure |
| UpdateRoleHandler.AsWrittenHandle | lecture8/services/RoleService/UpdateRole/app.py:10-89 | the handler as written: a malformed body gives 500; every update that does not change `name` gives 500 "Failed to update role" and leaves the table alone; an update with `name` gives 200, 404 or 500 by the store outcome |
| UpdateRoleHandler.Handle | lecture8/services/RoleService/UpdateRole/app.py:10-89 | the handler with line 56 corrected to leave the alias argument out: a malformed body gives 500; success gives 200 with the same `role_id`; a missing role gives 404; other failures give 500 |
| Middleware.Route | exercises2/frontend/src/middleware.ts:10-34 | "/login" with a token goes to "/", without passes; a protected path without a token goes to "/login" with `from`; everything else passes |
| Middleware.EveryOtherPathGuarded | exercises2/frontend/src/middleware.ts:8-30 | since "/" is a protected prefix, every other path without a token is redirected |
| Middleware.TokenPassesThrough | exercises2/frontend/src/middleware.ts:15-33 | with a token every path but "/login" passes |
| Middleware.NoRedirectLoop | exercises2/frontend/src/middleware.ts:15-30 | a redirect never targets the same path, and its target then passes |
| NewPasswordScreen.StrongEnoughIff | exercises2/frontend/components/NewPasswordForm.tsx:38 | on one line, the lookahead test holds exactly when there is a lowercase letter, an uppercase letter and a digit |
| NewPasswordScreen.SplitAcrossLinesIsWeak | exercises2/frontend/components/NewPasswordForm.tsx:38 | the lookaheads stop at a line break, so "abcdefgh\nXY12" fails |
| NewPasswordScreen.PolicyError | exercises2/frontend/components/NewPasswordForm.tsx:25-42 | no error exactly when the confirmation matches, the length is at least 8 and the test holds; a mismatch is reported first |
| NewPasswordScreen.ProviderError | exercises2/frontend/components/NewPasswordForm.tsx:44-56 | a failed result shows its message verbatim; a rejection shows the fixed message |
| NewPasswordScreen.NewPasswordForm.constructor | exercises2/frontend/components/NewPasswordForm.tsx:14-17 | empty fields, not loading, no error |
| NewPasswordScreen.NewPasswordForm.HandleSubmit | exercises2/frontend/components/NewPasswordForm.tsx:19-57 | the provider is called exactly when every check passes; otherwise the policy error shows; loading is false on every exit |
| Auth.WithTokens | exercises2/frontend/libs/auth.ts:153-171 | all three keys written; refresh token 30 days, the others 1 day; secure in production, SameSite strict; other cookies kept |
| Auth.WithoutTokens | exercises2/frontend/libs/auth.ts:147-149 | removes exactly the three token cookies |
| Auth.SignOutIdempotent | exercises2/frontend/libs/auth.ts:139-150 | signing out twice is signing out once, and leaves no ID token |
| Auth.StoreThenSignOut | exercises2/frontend/libs/auth.ts:153-193 | after storing, authenticated exactly when the ID token is non-empty; signing out then removes what was stored |
| Auth.AttributeMapSpec | exercises2/frontend/libs/auth.ts:219-224 | a name is mapped exactly when an attribute with a non-empty name and value has it, to the last such value |
| Auth.AuthStore.IdToken | exercises2/frontend/libs/auth.ts:181-185 | the ID-token cookie, if set |
| Auth.AuthStore.IsAuthenticated | exercises2/frontend/libs/auth.ts:188-193 | true exactly when the ID-token cookie is non-empty |
| Auth.AuthStore.StoreTokens | exercises2/frontend/libs/auth.ts:153-171 | the cookie jar gains the tokens |
| Auth.AuthStore.SignOut | exercises2/frontend/libs/auth.ts:139-150 | the token cookies and the current user are gone |
| Auth.AuthStore.SignIn | exercises2/frontend/libs/auth.ts:47-102 | success stores the tokens and reports them; a failure passes the message through with a fallback; the new-password challenge sets only its flag; MFA fails; nothing is stored unless it succeeds |
| Auth.AuthStore.CompleteNewPassword | exercises2/frontend/libs/auth.ts:105-136 | success stores the tokens; failure passes the message through with a fallback and stores nothing |
| Auth.AuthStore.RefreshToken | exercises2/frontend/libs/auth.ts:237-279 | no user gives false; a valid session gives true with no refresh; a session or refresh error signs out and gives false; a refresh stores the new tokens and gives true |
| Auth.AuthStore.GetCurrentUser | exercises2/frontend/libs/auth.ts:196-234 | no user gives null; an invalid session signs out and gives null; otherwise the user with the filtered attribute map and its email |
| ApiClient.LoadConfig | exercises2/frontend/libs/api.ts:3-18 | fails with the API-base message first, then the comments message, unless both variables are set |
| ApiClient.MergedHeaders | exercises2/frontend/libs/api.ts:42-53 | "Bearer " + token and JSON content type by default; caller headers win |
| ApiClient.ApiCall | exercises2/frontend/libs/api.ts:29-76 | no ID token gives 401 and no request; a non-2xx status gives its status and text; a body or network failure gives 500 |
| ApiClient.ErrorStatuses | exercises2/frontend/libs/api.ts:36-75 | every error is 401, a non-2xx status, or 500 |
| ApiClient.Utf8 | exercises2/frontend/libs/api.ts:122-124 | one to four bytes, ASCII as itself |
| ApiClient.Utf8String | exercises2/frontend/libs/api.ts:122-124 | every byte of the text's encoding is below 256 |
| ApiClient.EncodeByte | exercises2/frontend/libs/api.ts:122-124 | one character or a "%XX" escape |
| ApiClient.HexRoundTrip | exercises2/frontend/libs/api.ts:122-124 | a hex digit reads back as its value |
| ApiClient.DecodeByteStep | exercises2/frontend/libs/api.ts:122-124 | decoding reads one encoded byte at a time |
| ApiClient.EncodeDecodeBytes | exercises2/frontend/libs/api.ts:122-124 | decoding the form encoding gives the bytes back |
| ApiClient.FormEncodeDecodes | exercises2/frontend/libs/api.ts:143-147 | a form-encoded value decodes to the UTF-8 bytes of the text |
| ApiClient.EncodedHasNoDelimiter | exercises2/frontend/libs/api.ts:143-147 | an encoded value contains no "&", "=", "#" or "?" |
| ApiClient.ListTroublesEndpoint | exercises2/frontend/libs/api.ts:121-127 | "/troubles", plus "?nextToken=" and the encoded token only when one is given |
| ApiClient.GetCommentsEndpoint | exercises2/frontend/libs/api.ts:143-147 | "/comments?trouble_id=" and the encoded id |
| ApiClient.ListTroubles | exercises2/frontend/libs/api.ts:121-129 | no request and a 401 exactly when the ID token is missing or empty; otherwise a GET with no body on the API base's list endpoint, with the bearer headers |
| ApiClient.CreateTrouble | exercises2/frontend/libs/api.ts:132-137 | a POST to the API base's "/troubles" |
| ApiClient.GetComments | exercises2/frontend/libs/api.ts:143-149 | a request to the comments base's comment endpoint for the trouble |
| ApiClient.CreateComment | exercises2/frontend/libs/api.ts:152-157 | a POST to the comments base's "/comments" |
| CommentsService.ItemJson | exercises2/backend/services/CommentsService/app.py:64-69 | the item's four attributes under their table names |
| CommentsService.TroubleKey | exercises2/backend/services/CommentsService/app.py:41-65 | "trouble#" + id, from which removing the prefix gives the id back |
| CommentsService.SortKeyRoundTrip | exercises2/frontend/app/troubles/page.tsx:35-37 | splitting the sort key on "#" gives "createdAt", the time and the id when neither contains "#" |
| CommentsService.PyStr | exercises2/backend/services/CommentsService/app.py:65 | a string prints as itself; lists and objects are not printed |
| CommentsService.Query | exercises2/backend/services/CommentsService/app.py:43-46 | exactly the items under the partition key |
| CommentsService.Put | exercises2/backend/services/CommentsService/app.py:71 | the item is stored, replacing only an item with the same keys |
| CommentsService.GetComments | exercises2/backend/services/CommentsService/app.py:34-49 | 400 exactly when `trouble_id` is missing or empty; 200 with the items under the trouble's key |
| CommentsService.PostComment | exercises2/backend/services/CommentsService/app.py:51-76 | 400 exactly when `trouble_id` or `comment` is falsy; 201 stores the item with the keys and "user#" + sub and answers it; nothing is written otherwise |
| CommentsService.Handle | exercises2/backend/services/CommentsService/app.py:26-32 | GET and POST dispatch; OPTIONS gives 200; any other method gives nothing |
| CommentsService.PostThenGet | exercises2/backend/services/CommentsService/app.py:41-73 | a posted comment is returned by a later GET for its trouble, and its sort key splits back |
| CreateUserHandler.MissingField | lecture7/services/UserService/CreateUser/app.py:11-13 | the first of username, email, role missing; none exactly when all are present |
| CreateUserHandler.CheckUsername | lecture7/services/UserService/CreateUser/app.py:17-26 | a string username is accepted exactly when it has 3 to 32 characters |
| CreateUserHandler.ReservedNameBranchUnreachable | lecture7/services/UserService/CreateUser/app.py:17-26 | the "me" branch is dead: "me" is rejected as an invalid username |
| CreateUserHandler.Handle | lecture7/services/UserService/CreateUser/app.py:8-72 | a missing field gives 400 "Missing field"; 201 only for an accepted new name, creating the user with the password made permanent; the pool changes on failure only when the second call fails |
| CreateUserHandler.DuplicateRejected | lecture7/services/UserService/CreateUser/app.py:57-61 | a name already in the pool gives 400 and changes nothing |
| CreateUserHandler.FreshUserCreated | lecture7/services/UserService/CreateUser/app.py:14-55 | a fresh request creates exactly that user with "TempPassword123!" made permanent |
| PreTokenGeneration.CommaJoin | lecture7/services/Cognito/PreTokenGeneration/app.py:30 | a list joins when all its items are strings; other values cannot join |
| PreTokenGeneration.Claims | lecture7/services/Cognito/PreTokenGeneration/app.py:20-30 | `role` and `is_super_user` always; `allowed_operations` exactly for a non-super user with a non-empty list |
| PreTokenGeneration.Handle | lecture7/services/Cognito/PreTokenGeneration/app.py:7-38 | a missing `custom:role` or a fault raises; the event comes back with only `response` replaced by the claims |
| PreTokenGeneration.MissingRoleItem | lecture7/services/Cognito/PreTokenGeneration/app.py:15-26 | a role without an item is not a super user and gets no operations |
| PreTokenGeneration.AllowedOperationsRoundTrip | lecture7/services/Cognito/PreTokenGeneration/app.py:28-30 | the claim splits on "," back into the role's operations |
| Strings.Split | exercises2/backend/services/Authorizer/app.py:122 | at least one piece |
| Strings.SplitPiecesFree | exercises2/backend/services/Authorizer/app.py:122 | no piece contains the separator |
| Strings.SplitJoin | exercises2/frontend/app/troubles/page.tsx:35 | separator-free pieces survive a join and a split |
| Strings.JoinSplit | exercises2/backend/services/Authorizer/app.py:122-123 | splitting and joining restores the text |
| Strings.RemovePrefix | lecture7/services/TodoService/UpdateTodo/app.py:75 | the prefix and the rest make the text; unchanged without the prefix |
| Strings.RStrip | lecture7/services/TodoService/UpdateTodo/app.py:62 | never ends in a stripped character |
| Strings.StripEmptyIff | lecture1/convert/app.py:34 | a text strips to nothing exactly when it is all whitespace |
| Seqs.Filter | exercises1/frontend/components/TodoList.tsx:35 | exactly the elements that pass, never more than before |
| Seqs.Dedup | exercises1/frontend/components/TodoList.tsx:88 | the same elements, none repeated |
| Seqs.DedupPrefix | exercises1/frontend/components/TodoList.tsx:88 | elements keep their first-occurrence order |
| JsonValue.DecodeBody | lecture1/convert/app.py:31 | a missing body reads as "{}"; malformed text is a decode error |
| JsonValue.GetNonNull | exercises1/backend/todo_service/UpdateTodo/app.py:86-91 | a value exactly when the key is present and not null |

## Left out

- JWT decoding, the JWKS fetch and the RSA key: the exercises2 authorizer gets the token verdict as an input.
- The lecture7 authorizer's decode is the same kind of input. The `Bearer ` stripping of the header is not modelled.
- The DynamoDB and Cognito SDKs are not modelled. Tables and the user pool are maps or sequences, and the failures they raise are `fault` parameters.
- Clocks, UUIDs and the ISO timestamp format are parameters.
- Cookies, `fetch`, redirects and React rendering are not modelled. Component state is class fields, and `setState` is an immediate assignment.
- The request schema of the lecture7 update handler is not part of this model. Its verdict and message are inputs.
- The jsonschema `date` format is modelled as YYYY-MM-DD with month 01-12 and day 01-31. Days beyond the end of a month are not rejected.
- TodoSchemas.IsDateFormat: accepts ASCII digits only. The validator's `\d` in the year and in the day's second digit also accepts other Unicode decimal digits, such as a full-width year.
- JavaScript `length` counts UTF-16 code units. The model counts characters, so lengths differ for characters outside the Basic Multilingual Plane.
- Floating-point numbers are not modelled. JSON numbers are integers.
- `json.dumps` of a DynamoDB `Decimal` is reduced to one fact: a body holding any number fails to serialise.
- The Lambda runtime's own serialisation of the pre-token-generation result is not modelled.
- The Next.js matcher configuration (`exercises2/frontend/src/middleware.ts:37-48`) is not modelled. The guard is modelled for every path it receives.
- `response.text()` of a failed request and the JSON serialisation of request bodies are not modelled. Request bodies are JSON values.
- Header names are compared case-sensitively.
- CommentsService.Query: gives the items in table order. DynamoDB's sort-key order and pagination are not modelled.
- CommentsService.PostComment: a `trouble_id` that is a list or an object is answered with 500. Python would print its `repr` into the key instead.
- CommentsService.PyStr: Python's printing of lists and objects is not modelled.
- The authorizer's `principalId` is assumed present on every comment request.
- Auth.AuthStore: `currentUser` stands for the Cognito SDK's last authenticated user. The SDK's local storage is not modelled.
- Cognito usernames are compared case-sensitively.
- NewPasswordScreen.StrongEnoughIff: holds for passwords without line terminators. The regex lookaheads do not cross a line break, as SplitAcrossLinesIsWeak shows.
- UpdateRoleHandler.Handle: models the handler with line 56 corrected, so an update without `name` on an existing role answers 200 where the code as written answers 500. UpdateRoleHandler.AsWrittenHandle models the code as written.
- UpdateTodoHandler.Handle: only `ValueError` is caught around schema validation. The model assumes the validator raises one, as the integration tests' 400 answers show.
- Python exceptions that escape a handler are the single response `Unhandled`. API Gateway turns those into a 502.

## Findings

| source | as written | input that shows it | evidently intended | confidence | as-written member | corrected member |
|---|---|---|---|---|---|---|
| lecture8/services/RoleService/UpdateRole/app.py:56 | `ExpressionAttributeNames=expression_attribute_names or None` passes `None` when `name` is not updated, and boto3's parameter validation rejects `None` for a map | body `{"is_super_user": true}` for an existing role: 500 "Failed to update role" | leave the argument out when there is no alias, so updates without `name` succeed | medium, not executed | UpdateRoleHandler.AsWrittenNamesArgument, UpdateRoleHandler.AsWrittenRejectsUpdateWithoutName, UpdateRoleHandler.AsWrittenHandle | UpdateRoleHandler.NamesArgumentFor, UpdateRoleHandler.IntendedUpdateSucceeds, UpdateRoleHandler.Handle |

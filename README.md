# Student API store, modelled in Dafny

The project models the in-memory student table of a small ASP.NET Core API,
and the controller actions that read and change it. The state is the
process-wide list `CollegeRepository.Students`, seeded with two records. Each
`StudentController` action is one step from (list, request input) to (new list,
outcome), where the outcome stands for the HTTP status.

- `model.dfy` (module `Model`): C# `int` as `Int32` with unchecked wrap-around,
  nullable strings as `Option<string>`, and the `Student` and `StudentDTO` records.
- `validation.dfy` (module `Validation`): the `StudentDTO` field attributes as
  `Validate`, which lists the errors with their messages, and `IsValid`. The
  `[EmailAddress]` shape check is a parameter, `emailShape`, so every
  property holds whichever rule the library uses.
- `repository.dfy` (module `Repository`): the `CollegeRepository` class with its
  `Students` field and its seed. It also holds `FirstMatch`
  (`Where(...).FirstOrDefault()`) and the store invariant `WellFormed` (ids
  positive and strictly increasing along the list).
- `controller.dfy` (module `Controller`): the actions. Queries are functions of
  the list. Each changing action has a step function that states its contract,
  and a method on the shared repository that is proved equal to that function.
  `Handle` and `Run` serve one request or a sequence of requests.
- `properties.dfy` (module `Properties`): the cross-call properties. These are
  invariant preservation by every action and over whole runs, id uniqueness
  from the seed, create-then-get and delete-then-get round trips, update
  idempotence, and the seeded scenario.

Behaviour worth knowing, modelled as the code has it:

- A create computes the new id as the last record's id plus one. On an empty
  list `LastOrDefault()` is null, so the action throws before adding anything.
  The model answers `InternalError` (status 500) and does not restart ids at 1.
- The framework validates the create and update bodies before the action runs
  (the controller is an `[ApiController]`). The model folds that check into
  `CreateStep` and `UpdateStep`.
- The partial update runs no field rule. It only checks that applying the
  patch reported no error. A patch that clears the name is therefore committed
  (`PatchCanStoreMissingName`).
- "Last id + 1" is "largest id + 1" only while ids increase along the list.
  Every action keeps that order, except a create when the last id is
  2147483647: the addition then wraps to -2147483648 (`CreateAtInt32MaxWraps`).
- A delete can lower the last id, and the next create then gives the remaining
  last id plus one. With ids 1 and 3, deleting 3 and then creating gives id 2.
  Every id above the remaining last one is gone by then, so ids stay unique.
  If the delete empties the list, the next create answers 500.

## Model

| member | source | states |
|---|---|---|
| `Model.Wrap` | MyProject1/Controllers/StudentController.cs:145 | C# `int` addition: exact inside the 32-bit range; one past the largest `int` gives the smallest |
| `Model.ToDTO` | MyProject1/Controllers/StudentController.cs:70-76 | the `new StudentDTO { ... }` projection used by every action; no contract of its own, its meaning is stated by `Model.ProjectionCopiesFields` |
| `Model.ProjectionCopiesFields` | MyProject1/Controllers/StudentController.cs:70-76 | the DTO built from a record carries its four fields, and rebuilding a record from it gives the record back |
| `Validation.IsValid` | MyProject1/Models/StudentDTO.cs:9-21 | the model state is valid: `Validate` reports no error; no contract of its own, its meaning is stated by `Validation.Validate` |
| `Validation.Validate` | MyProject1/Models/StudentDTO.cs:9-21 | no error exactly when the name is present and at most 100 characters, a present email has the email shape, and the address is present; errors only ever name StudentName, Email or Address |
| `Validation.IdNotValidated` | MyProject1/Models/StudentDTO.cs:10-11 | changing `Id` to any value changes no validation error |
| `Validation.MissingNameRejected` | MyProject1/Models/StudentDTO.cs:13-15 | a null or empty name is an error with message "Student name is required !" and the DTO is invalid |
| `Validation.LongNameRejected` | MyProject1/Models/StudentDTO.cs:14 | a name longer than 100 characters is an error and the DTO is invalid |
| `Validation.EmailRule` | MyProject1/Models/StudentDTO.cs:17-18 | the email error "Please enter the valid email address !" is reported if and only if an email is present and lacks the email shape (a null email passes) |
| `Validation.MissingAddressRejected` | MyProject1/Models/StudentDTO.cs:20-21 | a null or empty address is an error and the DTO is invalid |
| `Repository.Seed` | MyProject1/Models/CollegeRepository.cs:5-20 | the two seeded records; no contract of its own, its contents are stated by `Repository.SeedContents` and `Repository.SeedWellFormed` |
| `Repository.CollegeRepository.constructor` | MyProject1/Models/CollegeRepository.cs:5-20 | the list starts as the two seeded records |
| `Repository.SeedContents` | MyProject1/Models/CollegeRepository.cs:5-20 | the seed holds exactly two records, id 1 "Tyan" then id 2 "Scul" |
| `Repository.SeedWellFormed` | MyProject1/Models/CollegeRepository.cs:8-15 | the seeded ids are positive and strictly increasing |
| `Repository.FirstMatch` | MyProject1/Controllers/StudentController.cs:61 | `Where(...).FirstOrDefault()`: a found position holds the first matching record, and nothing is found if and only if no record matches |
| `Repository.FirstMatchUnique` | MyProject1/Controllers/StudentController.cs:61 | only one position can be the first match |
| `Repository.IncreasingIdsAreUnique` | MyProject1/Controllers/StudentController.cs:145 | strictly increasing ids are pairwise distinct |
| `Repository.MaxId` | MyProject1/Controllers/StudentController.cs:145 | the largest id is at least every id in the list and is one of them |
| `Repository.LastIdIsMaxId` | MyProject1/Controllers/StudentController.cs:145 | with increasing ids, the last record's id is the largest id |
| `Controller.BodyRejected` | MyProject1/Controllers/StudentController.cs:11 | the automatic 400 of `[ApiController]`: the body is null or breaks a field rule; no contract of its own, used by `Controller.CreateStep` and `Controller.UpdateStep` |
| `Controller.CopyDetails` | MyProject1/Controllers/StudentController.cs:186-188 | the write-back of name, email and address, keeping the id; no contract of its own, stated by `Controller.UpdateStep` and `Controller.PatchStep` |
| `Controller.GetStudents` | MyProject1/Controllers/StudentController.cs:30-43 | 200 with exactly one DTO per record, in list order, with all four fields copied |
| `Controller.GetStudentByID` | MyProject1/Controllers/StudentController.cs:52-81 | id ≤ 0 gives 400 whatever the list holds; no record with the id gives 404; otherwise 200 with the fields of the first record with that id |
| `Controller.GetStudentByName` | MyProject1/Controllers/StudentController.cs:89-115 | a null or empty name gives 400; no record with exactly that name gives 404; otherwise 200 with the fields of the first record with that name |
| `Controller.CreateStep` | MyProject1/Controllers/StudentController.cs:123-163 | a null or invalid body gives 400 and an empty list gives 500, both leaving the list unchanged; otherwise exactly one record is appended, earlier records are untouched, and the new record has id "last id + 1" and the body's name, email and address; the 201 answer carries the new record's fields |
| `Controller.UpdateStep` | MyProject1/Controllers/StudentController.cs:172-191 | a null or invalid body, or id ≤ 0, gives 400; no match gives 404; both leave the list unchanged; otherwise 204, and only the first matching record changes, taking the body's name, email and address and keeping its id |
| `Controller.PatchStep` | MyProject1/Controllers/StudentController.cs:200-239 | a null patch or id ≤ 0 gives 400; no match gives 404; a patch whose application reports an error gives 400; all three leave the list unchanged; otherwise 204, and only the first matching record takes the patched name, email and address, keeping its stored id |
| `Controller.DeleteStep` | MyProject1/Controllers/StudentController.cs:246-265 | id ≤ 0 gives 400 and no match gives 404, both leaving the list unchanged; otherwise 200 with true, and the list loses exactly the first matching record, the others keeping their order |
| `Controller.CreateStudent` | MyProject1/Controllers/StudentController.cs:123-163 | the action on the shared list leaves the list and returns the outcome that `CreateStep` gives |
| `Controller.UpdateStudent` | MyProject1/Controllers/StudentController.cs:172-191 | the action on the shared list leaves the list and returns the outcome that `UpdateStep` gives |
| `Controller.UpdateStudentPartial` | MyProject1/Controllers/StudentController.cs:200-239 | the action on the shared list leaves the list and returns the outcome that `PatchStep` gives |
| `Controller.DeleteStudents` | MyProject1/Controllers/StudentController.cs:241-265 | the action on the shared list leaves the list and returns the outcome that `DeleteStep` gives |
| `Controller.Handle` | MyProject1/Controllers/StudentController.cs:241-252 | the three queries never change the list; a delete is never answered 400, because the route admits only ids 1 to 100 and any other id reaches no action (404) |
| `Properties.CreatePreservesWellFormed` | MyProject1/Controllers/StudentController.cs:145-155 | while the last id is below the largest `int`, a create keeps ids positive and strictly increasing, and the new id is the largest id plus one |
| `Properties.UpdateKeepsIds` | MyProject1/Controllers/StudentController.cs:186-188 | an update leaves the length and every id of the list as they were |
| `Properties.PatchKeepsIds` | MyProject1/Controllers/StudentController.cs:233-235 | a partial update leaves the length and every id as they were, whatever the patch did to the copy's id |
| `Properties.RemoveKeepsInvariant` | MyProject1/Controllers/StudentController.cs:261 | removing one record from a list with positive increasing ids leaves positive increasing ids |
| `Properties.DeletePreservesWellFormed` | MyProject1/Controllers/StudentController.cs:254-261 | a delete keeps ids positive and strictly increasing |
| `Properties.HandlePreservesWellFormed` | MyProject1/Controllers/StudentController.cs:145-261 | while every id is at most a bound below the largest `int`, any single request keeps the store invariant and raises the bound on ids by at most one |
| `Properties.RunPreservesWellFormed` | MyProject1/Controllers/StudentController.cs:145-261 | any sequence of requests keeps the store invariant, provided the ids start far enough below the largest `int` |
| `Properties.SeededRunKeepsIdsUnique` | MyProject1/Models/CollegeRepository.cs:5-20 | from the seeded list, ids stay pairwise distinct over any run of at most 2147483645 requests |
| `Properties.CreateAtInt32MaxWraps` | MyProject1/Controllers/StudentController.cs:145 | after a record with the largest `int` id, a create assigns the smallest `int` and the order is broken |
| `Properties.UnorderedCreateRepeatsId` | MyProject1/Controllers/StudentController.cs:145 | without the order, "last id + 1" can assign an id already present (list ids 2, 1 give 2) |
| `Properties.CreateThenGetById` | MyProject1/Controllers/StudentController.cs:145-162 | after a create on a well-formed list whose last id is below the largest `int`, a lookup of the returned id answers 200 with exactly the returned DTO |
| `Properties.DeleteThenGetById` | MyProject1/Controllers/StudentController.cs:254-264 | after a delete answered true on a well-formed list, a lookup of that id answers 404 |
| `Properties.UpdateIdempotent` | MyProject1/Controllers/StudentController.cs:179-190 | sending the same update twice gives the same list and outcome as sending it once |
| `Properties.PatchCanStoreMissingName` | MyProject1/Controllers/StudentController.cs:225-235 | one example: on the seeded list, a patch of id 1 that clears the name and reports no error is committed, leaving a stored record that the field rules reject (the general rule is `PatchStep`'s contract) |
| `Properties.SeededScenario` | MyProject1/Models/CollegeRepository.cs:5-20 | from the seed, creating "Ada" answers id 3; id 3 is then found with the body's fields; deleting it answers true; id 3 is then not found |

## Left out

- Logging: the `ILogger` calls only write messages to an external sink.
- The demo controller only calls a logging sink and answers 200.
- Routing and model binding are left out, except the delete route's 1 to 100 id range in `Handle`. This covers the `{id:int}` and `{name:alpha}` constraints, JSON binding, the location URL built by `CreatedAtRoute`, and the `ActionResult` wrapping.
- Response bodies of errors are left out: the text of the 404 messages and the model-state details of a 400.
- `JsonPatchDocument.ApplyTo` belongs to a library. It is a function in the patch value, returning the patched DTO and whether it reported an error.
- The algorithm of `[EmailAddress]` belongs to a library. It is the `emailShape` parameter.
- The library's `[Required]` also rejects strings made only of white space. The model rejects only null and empty strings.
- `[StringLength]` counts UTF-16 code units. The model counts Dafny characters, which differ for characters outside the Basic Multilingual Plane.
- Concurrent requests are left out: the list has no locking, and the model serves requests one at a time.
- The `Student` class is not part of this model. It is taken to have the four fields of `StudentDTO`.
- Student records are values, not shared objects. The in-place field writes become a replacement of the list element, and `List.Remove` of the found object becomes removal at its position (it is the same object, so nothing else changes).
- Validate: assumes the project does not enable nullable reference types. With them enabled, the framework treats the non-nullable `Email` as implicitly required and answers 400 ("The Email field is required.") to a body with a null email; the model lets a null email pass, so on such a body `CreateStep` answers 201 and `UpdateStep` 204. The project file that decides this is not part of this model.
- CreatePreservesWellFormed: requires the last id to be below 2147483647, because at that id the unchecked addition wraps (see `CreateAtInt32MaxWraps`).
- RunPreservesWellFormed: requires every id to be at most 2147483647 minus the number of requests, for the same reason.
- SeededRunKeepsIdsUnique: holds for runs of at most 2147483645 requests, for the same reason.

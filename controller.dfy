/** The actions of `StudentController`. Each action is one step from the
    current list and the request input to the new list and an outcome; the
    outcome stands for the HTTP status the action returns. The queries are
    functions of the list; the actions that change the list are methods on
    the shared `CollegeRepository`, each proved equal to its step function. */
module Controller {
  import opened Model
  import opened Validation
  import opened Repository

  /** What an action answers: 400, 404, 200 with one student, with a list or
      with a flag, 201 with the created student, 204, or 500 for an
      exception the action does not catch. */
  datatype Outcome =
    | BadRequest
    | NotFound
    | OkStudent(student: StudentDTO)
    | OkStudents(students: seq<StudentDTO>)
    | OkFlag(flag: bool)
    | Created(created: StudentDTO)
    | NoContent
    | InternalError

  /** The list after an action, and the action's outcome. */
  datatype Step = Step(students: seq<Student>, outcome: Outcome)

  /** What applying a JSON patch document to a DTO leaves: the patched DTO,
      and whether the model state is still valid (no patch operation failed). */
  datatype PatchResult = PatchResult(dto: StudentDTO, ok: bool)

  /** A JSON patch document, known only through what applying it does. */
  datatype PatchDocument = PatchDocument(ApplyTo: StudentDTO -> PatchResult)

  /** The body is null or breaks a field rule; the framework answers 400
      before the action runs. */
  predicate BodyRejected(model: Option<StudentDTO>, emailShape: string -> bool)
  {
    model.None? || !IsValid(model.value, emailShape)
  }

  /** `st` with the name, email and address of `d`; the id stays. */
  function CopyDetails(st: Student, d: StudentDTO): Student
  {
    st.(StudentName := d.StudentName, Email := d.Email, Address := d.Address)
  }

  // ---------------------------------------------------------------------
  // Queries

  /** GET All: every record, projected, in list order. */
  function GetStudents(s: seq<Student>): (r: Outcome)
    ensures r.OkStudents? && |r.students| == |s|
    ensures forall i :: 0 <= i < |s| ==> SameFields(r.students[i], s[i])
  {
    OkStudents(seq(|s|, i requires 0 <= i < |s| => ToDTO(s[i])))
  }

  /** GET {id}: the first record with that id. */
  function GetStudentByID(s: seq<Student>, id: Int32): (r: Outcome)
    ensures id <= 0 ==> r == BadRequest
    ensures id > 0 && NoMatch(s, ById(id)) ==> r == NotFound
    ensures forall i :: id > 0 && FirstMatchAt(s, ById(id), i) ==> r.OkStudent? && SameFields(r.student, s[i])
  {
    if id <= 0 then BadRequest
    else match FirstMatch(s, ById(id))
      case None => NotFound
      case Some(i) => OkStudent(ToDTO(s[i]))
  }

  /** GET {name}: the first record with exactly that name. */
  function GetStudentByName(s: seq<Student>, name: Option<string>): (r: Outcome)
    ensures name.None? || name == Some("") ==> r == BadRequest
    ensures name.Some? && name.value != "" && NoMatch(s, ByName(name.value)) ==> r == NotFound
    ensures forall i :: name.Some? && name.value != "" && FirstMatchAt(s, ByName(name.value), i) ==>
              r.OkStudent? && SameFields(r.student, s[i])
  {
    if name.None? || name.value == "" then BadRequest
    else match FirstMatch(s, ByName(name.value))
      case None => NotFound
      case Some(i) => OkStudent(ToDTO(s[i]))
  }

  // ---------------------------------------------------------------------
  // Steps that change the list

  /** POST Create: append a record whose id is the last record's id plus one
      (in unchecked 32-bit arithmetic). On an empty list `LastOrDefault()` is
      null and reading its `Id` throws before anything is added. */
  function CreateStep(s: seq<Student>, model: Option<StudentDTO>, emailShape: string -> bool): (r: Step)
    ensures BodyRejected(model, emailShape) ==> r == Step(s, BadRequest)
    ensures !BodyRejected(model, emailShape) && |s| == 0 ==> r == Step(s, InternalError)
    ensures !BodyRejected(model, emailShape) && |s| > 0 ==>
              |r.students| == |s| + 1 && r.students[..|s|] == s &&
              r.students[|s|].Id == Wrap(s[|s| - 1].Id + 1) &&
              r.students[|s|].StudentName == model.value.StudentName &&
              r.students[|s|].Email == model.value.Email &&
              r.students[|s|].Address == model.value.Address &&
              r.outcome.Created? && SameFields(r.outcome.created, r.students[|s|])
  {
    if BodyRejected(model, emailShape) then Step(s, BadRequest)
    else if |s| == 0 then Step(s, InternalError)
    else
      var m := model.value;
      var newId := Wrap(s[|s| - 1].Id + 1);
      Step(s + [Student(newId, m.StudentName, m.Email, m.Address)], Created(m.(Id := newId)))
  }

  /** The body is rejected by the field rules or the update action's own check. */
  predicate UpdateRejected(model: Option<StudentDTO>, emailShape: string -> bool)
  {
    BodyRejected(model, emailShape) || model.value.Id <= 0
  }

  /** PUT Update: overwrite name, email and address of the first record with
      the body's id. */
  function UpdateStep(s: seq<Student>, model: Option<StudentDTO>, emailShape: string -> bool): (r: Step)
    ensures UpdateRejected(model, emailShape) ==> r == Step(s, BadRequest)
    ensures !UpdateRejected(model, emailShape) && NoMatch(s, ById(model.value.Id)) ==> r == Step(s, NotFound)
    ensures forall i :: !UpdateRejected(model, emailShape) && FirstMatchAt(s, ById(model.value.Id), i) ==>
              r.outcome == NoContent && |r.students| == |s| &&
              r.students[i].Id == s[i].Id &&
              r.students[i].StudentName == model.value.StudentName &&
              r.students[i].Email == model.value.Email &&
              r.students[i].Address == model.value.Address &&
              forall j :: 0 <= j < |s| && j != i ==> r.students[j] == s[j]
  {
    if UpdateRejected(model, emailShape) then Step(s, BadRequest)
    else match FirstMatch(s, ById(model.value.Id))
      case None => Step(s, NotFound)
      case Some(i) => Step(s[i := CopyDetails(s[i], model.value)], NoContent)
  }

  /** PATCH {id}/UpdatePartial: copy the first record with that id into a DTO,
      apply the patch to the copy, and copy name, email and address back only
      if applying it reported no error. The field rules are not run again. */
  function PatchStep(s: seq<Student>, id: Int32, patch: Option<PatchDocument>): (r: Step)
    ensures patch.None? || id <= 0 ==> r == Step(s, BadRequest)
    ensures patch.Some? && id > 0 && NoMatch(s, ById(id)) ==> r == Step(s, NotFound)
    ensures forall i :: patch.Some? && id > 0 && FirstMatchAt(s, ById(id), i) ==>
              var applied := patch.value.ApplyTo(ToDTO(s[i]));
              (!applied.ok ==> r == Step(s, BadRequest)) &&
              (applied.ok ==>
                 r.outcome == NoContent && |r.students| == |s| &&
                 r.students[i].Id == s[i].Id &&
                 r.students[i].StudentName == applied.dto.StudentName &&
                 r.students[i].Email == applied.dto.Email &&
                 r.students[i].Address == applied.dto.Address &&
                 forall j :: 0 <= j < |s| && j != i ==> r.students[j] == s[j])
  {
    if patch.None? || id <= 0 then Step(s, BadRequest)
    else match FirstMatch(s, ById(id))
      case None => Step(s, NotFound)
      case Some(i) =>
        var applied := patch.value.ApplyTo(ToDTO(s[i]));
        if !applied.ok then Step(s, BadRequest)
        else Step(s[i := CopyDetails(s[i], applied.dto)], NoContent)
  }

  /** DELETE Delete/{id}: remove the first record with that id. */
  function DeleteStep(s: seq<Student>, id: Int32): (r: Step)
    ensures id <= 0 ==> r == Step(s, BadRequest)
    ensures id > 0 && NoMatch(s, ById(id)) ==> r == Step(s, NotFound)
    ensures forall i :: id > 0 && FirstMatchAt(s, ById(id), i) ==>
              r.outcome == OkFlag(true) && |r.students| == |s| - 1 &&
              (forall j :: 0 <= j < i ==> r.students[j] == s[j]) &&
              (forall j :: i < j < |s| ==> r.students[j - 1] == s[j])
  {
    if id <= 0 then Step(s, BadRequest)
    else match FirstMatch(s, ById(id))
      case None => Step(s, NotFound)
      case Some(i) => Step(s[..i] + s[i + 1..], OkFlag(true))
  }

  // ---------------------------------------------------------------------
  // The actions, run against the shared list

  method CreateStudent(repo: CollegeRepository, model: Option<StudentDTO>, emailShape: string -> bool)
    returns (r: Outcome)
    modifies repo
    ensures Step(repo.Students, r) == CreateStep(old(repo.Students), model, emailShape)
  {
    if BodyRejected(model, emailShape) {
      return BadRequest;
    }
    if |repo.Students| == 0 {
      // LastOrDefault() is null: dereferencing it throws
      return InternalError;
    }
    var body := model.value;
    var newId := Wrap(repo.Students[|repo.Students| - 1].Id + 1);
    var student := Student(newId, body.StudentName, body.Email, body.Address);
    repo.Students := repo.Students + [student];
    body := body.(Id := student.Id);
    return Created(body);
  }

  method UpdateStudent(repo: CollegeRepository, model: Option<StudentDTO>, emailShape: string -> bool)
    returns (r: Outcome)
    modifies repo
    ensures Step(repo.Students, r) == UpdateStep(old(repo.Students), model, emailShape)
  {
    if BodyRejected(model, emailShape) || model.value.Id <= 0 {
      return BadRequest;
    }
    var existing := FirstMatch(repo.Students, ById(model.value.Id));
    if existing.None? {
      return NotFound;
    }
    var i := existing.value;
    repo.Students := repo.Students[i := CopyDetails(repo.Students[i], model.value)];
    return NoContent;
  }

  method UpdateStudentPartial(repo: CollegeRepository, id: Int32, patch: Option<PatchDocument>)
    returns (r: Outcome)
    modifies repo
    ensures Step(repo.Students, r) == PatchStep(old(repo.Students), id, patch)
  {
    if patch.None? || id <= 0 {
      return BadRequest;
    }
    var existing := FirstMatch(repo.Students, ById(id));
    if existing.None? {
      return NotFound;
    }
    var i := existing.value;
    var dto := ToDTO(repo.Students[i]);
    var applied := patch.value.ApplyTo(dto);
    if !applied.ok {
      return BadRequest;
    }
    dto := applied.dto;
    repo.Students := repo.Students[i := CopyDetails(repo.Students[i], dto)];
    return NoContent;
  }

  method DeleteStudents(repo: CollegeRepository, id: Int32) returns (r: Outcome)
    modifies repo
    ensures Step(repo.Students, r) == DeleteStep(old(repo.Students), id)
  {
    if id <= 0 {
      return BadRequest;
    }
    var existing := FirstMatch(repo.Students, ById(id));
    if existing.None? {
      return NotFound;
    }
    var i := existing.value;
    repo.Students := repo.Students[..i] + repo.Students[i + 1..];
    return OkFlag(true);
  }

  // ---------------------------------------------------------------------
  // Requests

  /** One request to the controller's routes. */
  datatype Request =
    | GetAll
    | GetById(id: Int32)
    | GetByName(name: Option<string>)
    | Create(body: Option<StudentDTO>)
    | Update(body: Option<StudentDTO>)
    | UpdatePartial(id: Int32, patch: Option<PatchDocument>)
    | Delete(id: Int32)

  /** The delete route only matches ids from 1 to 100. */
  predicate DeleteRouteMatches(id: Int32)
  {
    1 <= id <= 100
  }

  /** Serve one request: the route picks the action; a delete whose id the
      route does not match reaches no action and is answered 404. */
  function Handle(s: seq<Student>, req: Request, emailShape: string -> bool): (r: Step)
    ensures req.GetAll? || req.GetById? || req.GetByName? ==> r.students == s
    ensures req.Delete? ==> r.outcome != BadRequest
    ensures req.Delete? && !DeleteRouteMatches(req.id) ==> r == Step(s, NotFound)
  {
    match req
    case GetAll => Step(s, GetStudents(s))
    case GetById(id) => Step(s, GetStudentByID(s, id))
    case GetByName(name) => Step(s, GetStudentByName(s, name))
    case Create(body) => CreateStep(s, body, emailShape)
    case Update(body) => UpdateStep(s, body, emailShape)
    case UpdatePartial(id, patch) => PatchStep(s, id, patch)
    case Delete(id) => if DeleteRouteMatches(id) then DeleteStep(s, id) else Step(s, NotFound)
  }

  /** The list after serving `reqs` in order, one at a time. */
  function Run(s: seq<Student>, reqs: seq<Request>, emailShape: string -> bool): seq<Student>
    decreases |reqs|
  {
    if |reqs| == 0 then s else Run(Handle(s, reqs[0], emailShape).students, reqs[1..], emailShape)
  }
}

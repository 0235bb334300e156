/** What the actions promise across calls: the id order that keeps ids
    unique, the round trips between actions, idempotence, and the seeded
    scenario. */
module Properties {
  import opened Model
  import opened Validation
  import opened Repository
  import opened Controller

  /** Every id is at most `bound`. */
  ghost predicate IdsAtMost(s: seq<Student>, bound: int)
  {
    forall i :: 0 <= i < |s| ==> s[i].Id <= bound
  }

  // ---------------------------------------------------------------------
  // Each step keeps the store invariant

  /** While the last id is below the largest `int`, a create keeps ids
      positive and increasing, and the new id is one more than every id in
      the list, so it is fresh. */
  lemma CreatePreservesWellFormed(s: seq<Student>, model: Option<StudentDTO>, emailShape: string -> bool)
    requires WellFormed(s)
    requires |s| == 0 || s[|s| - 1].Id < Int32Max
    ensures WellFormed(CreateStep(s, model, emailShape).students)
    ensures !BodyRejected(model, emailShape) && |s| > 0 ==>
              CreateStep(s, model, emailShape).students[|s|].Id == MaxId(s) + 1
  {
    var t := CreateStep(s, model, emailShape).students;
    if !BodyRejected(model, emailShape) && |s| > 0 {
      LastIdIsMaxId(s);
      forall i, j | 0 <= i < j < |t| ensures t[i].Id < t[j].Id {
        if j == |s| {
          assert t[i] == s[i];
        } else {
          assert t[i] == s[i] && t[j] == s[j];
        }
      }
      forall i | 0 <= i < |t| ensures t[i].Id > 0 {
        if i < |s| { assert t[i] == s[i]; }
      }
    }
  }

  /** An update leaves every id where it was. */
  lemma UpdateKeepsIds(s: seq<Student>, model: Option<StudentDTO>, emailShape: string -> bool)
    ensures var t := UpdateStep(s, model, emailShape).students;
            |t| == |s| && forall i :: 0 <= i < |s| ==> t[i].Id == s[i].Id
  {
  }

  /** A partial update leaves every id where it was, whatever the patch did
      to the id of the copy. */
  lemma PatchKeepsIds(s: seq<Student>, id: Int32, patch: Option<PatchDocument>)
    ensures var t := PatchStep(s, id, patch).students;
            |t| == |s| && forall i :: 0 <= i < |s| ==> t[i].Id == s[i].Id
  {
  }

  /** Same ids in the same places keep the store invariant and any bound. */
  lemma SameIdsKeepInvariant(s: seq<Student>, t: seq<Student>, bound: int)
    requires |t| == |s| && forall i :: 0 <= i < |s| ==> t[i].Id == s[i].Id
    ensures WellFormed(s) ==> WellFormed(t)
    ensures IdsAtMost(s, bound) ==> IdsAtMost(t, bound)
  {
  }

  /** Removing one record keeps the rest in order and under any bound. */
  lemma RemoveKeepsInvariant(s: seq<Student>, k: nat, bound: int)
    requires WellFormed(s) && k < |s|
    ensures WellFormed(s[..k] + s[k + 1..])
    ensures IdsAtMost(s, bound) ==> IdsAtMost(s[..k] + s[k + 1..], bound)
  {
  }

  /** Removing the first match keeps the rest in order. */
  lemma DeletePreservesWellFormed(s: seq<Student>, id: Int32, bound: int)
    requires WellFormed(s)
    ensures WellFormed(DeleteStep(s, id).students)
    ensures IdsAtMost(s, bound) ==> IdsAtMost(DeleteStep(s, id).students, bound)
  {
  }

  /** One request of any kind keeps the store invariant, and raises the
      largest id by at most one. */
  lemma HandlePreservesWellFormed(s: seq<Student>, req: Request, emailShape: string -> bool, bound: int)
    requires WellFormed(s) && IdsAtMost(s, bound) && bound < Int32Max
    ensures WellFormed(Handle(s, req, emailShape).students)
    ensures IdsAtMost(Handle(s, req, emailShape).students, bound + 1)
  {
    var t := Handle(s, req, emailShape).students;
    match req
    case GetAll =>
    case GetById(_) =>
    case GetByName(_) =>
    case Create(body) =>
      CreatePreservesWellFormed(s, body, emailShape);
      if !BodyRejected(body, emailShape) && |s| > 0 {
        forall i | 0 <= i < |t| ensures t[i].Id <= bound + 1 {
          if i < |s| { assert t[i] == s[i]; }
        }
      }
    case Update(body) =>
      UpdateKeepsIds(s, body, emailShape);
      SameIdsKeepInvariant(s, t, bound);
    case UpdatePartial(id, patch) =>
      PatchKeepsIds(s, id, patch);
      SameIdsKeepInvariant(s, t, bound);
    case Delete(id) =>
      DeletePreservesWellFormed(s, id, bound);
  }

  /** Any sequence of requests keeps the store invariant, provided the ids
      cannot reach the largest `int` within it. */
  lemma {:induction false} RunPreservesWellFormed(s: seq<Student>, reqs: seq<Request>, emailShape: string -> bool)
    requires WellFormed(s) && IdsAtMost(s, Int32Max - |reqs|)
    ensures WellFormed(Run(s, reqs, emailShape))
    decreases |reqs|
  {
    if |reqs| > 0 {
      HandlePreservesWellFormed(s, reqs[0], emailShape, Int32Max - |reqs|);
      RunPreservesWellFormed(Handle(s, reqs[0], emailShape).students, reqs[1..], emailShape);
    }
  }

  /** From the seeded list, ids stay unique over any run of at most
      2147483645 requests. */
  lemma SeededRunKeepsIdsUnique(reqs: seq<Request>, emailShape: string -> bool)
    requires |reqs| <= Int32Max - 2
    ensures UniqueIds(Run(Seed(), reqs, emailShape))
  {
    SeedWellFormed();
    RunPreservesWellFormed(Seed(), reqs, emailShape);
    IncreasingIdsAreUnique(Run(Seed(), reqs, emailShape));
  }

  // ---------------------------------------------------------------------
  // Where "last id + 1" goes wrong

  /** At the largest `int` the addition wraps to the smallest one, and the
      appended record breaks the order. */
  lemma CreateAtInt32MaxWraps(st: Student, m: StudentDTO, emailShape: string -> bool)
    requires st.Id == Int32Max && IsValid(m, emailShape)
    ensures var t := CreateStep([st], Some(m), emailShape).students;
            |t| == 2 && t[1].Id == Int32Min && !Increasing(t)
  {
  }

  /** Without the order, "last id + 1" can repeat an id already in the list. */
  lemma UnorderedCreateRepeatsId(m: StudentDTO, emailShape: string -> bool)
    requires IsValid(m, emailShape)
    ensures var s := [Student(2, None, None, None), Student(1, None, None, None)];
            !UniqueIds(CreateStep(s, Some(m), emailShape).students)
  {
    var s := [Student(2, None, None, None), Student(1, None, None, None)];
    var t := CreateStep(s, Some(m), emailShape).students;
    assert t[0].Id == t[2].Id;
  }

  // ---------------------------------------------------------------------
  // Round trips between actions

  /** After a create, looking up the returned id finds the created student. */
  lemma CreateThenGetById(s: seq<Student>, model: Option<StudentDTO>, emailShape: string -> bool)
    requires WellFormed(s) && |s| > 0 && s[|s| - 1].Id < Int32Max
    requires !BodyRejected(model, emailShape)
    ensures var r := CreateStep(s, model, emailShape);
            r.outcome.Created? &&
            GetStudentByID(r.students, r.outcome.created.Id) == OkStudent(r.outcome.created)
  {
  }

  /** After a delete that succeeds, the id is no longer found. */
  lemma DeleteThenGetById(s: seq<Student>, id: Int32)
    requires WellFormed(s)
    requires DeleteStep(s, id).outcome == OkFlag(true)
    ensures GetStudentByID(DeleteStep(s, id).students, id) == NotFound
  {
  }

  /** Sending the same update twice leaves the list as sending it once. */
  lemma UpdateIdempotent(s: seq<Student>, model: Option<StudentDTO>, emailShape: string -> bool)
    ensures var once := UpdateStep(s, model, emailShape);
            UpdateStep(once.students, model, emailShape) == once
  {
  }

  // ---------------------------------------------------------------------
  // The partial update does not run the field rules

  /** A patch that clears the name and reports no error is committed: the
      stored record is left with no name, which the create and update bodies
      could never carry. */
  lemma PatchCanStoreMissingName(emailShape: string -> bool)
    ensures var clear := PatchDocument((d: StudentDTO) => PatchResult(d.(StudentName := None), true));
            var r := PatchStep(Seed(), 1, Some(clear));
            r.outcome == NoContent && r.students[0].StudentName.None? &&
            !IsValid(ToDTO(r.students[0]), emailShape)
  {
  }

  // ---------------------------------------------------------------------
  // The seeded scenario

  /** From the seeded list, the first create assigns id 3; that id is then
      found with the body's fields; deleting it answers true; and it is then
      no longer found. */
  lemma SeededScenario(emailShape: string -> bool)
    requires emailShape("ada@x.com")
    ensures var ada := StudentDTO(0, Some("Ada"), Some("ada@x.com"), Some("UK"));
            var created := CreateStep(Seed(), Some(ada), emailShape);
            var stored := StudentDTO(3, Some("Ada"), Some("ada@x.com"), Some("UK"));
            var deleted := DeleteStep(created.students, 3);
            created.outcome == Created(stored) &&
            GetStudentByID(created.students, 3) == OkStudent(stored) &&
            deleted.outcome == OkFlag(true) &&
            GetStudentByID(deleted.students, 3) == NotFound
  {
  }
}

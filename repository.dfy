/** The process-wide student list, its seeded contents, the first-match
    lookup the handlers run on it, and the order of ids that keeps them unique. */
module Repository {
  import opened Model

  /** The two records the list holds when the process starts. */
  function Seed(): seq<Student>
  {
    [ Student(1, Some("Tyan"), Some("phamquangtuyen.nt@gmail.com"), Some("12 Melbourne")),
      Student(2, Some("Scul"), Some("student2@gmail.com"), Some("Los Angeles")) ]
  }

  /** The static `Students` list, owned by one instance. */
  class CollegeRepository {
    var Students: seq<Student>

    constructor ()
      ensures Students == Seed()
    {
      Students := Seed();
    }
  }

  /** The initial list holds exactly "Tyan" with id 1 and then "Scul" with id 2. */
  lemma SeedContents()
    ensures |Seed()| == 2
    ensures Seed()[0].Id == 1 && Seed()[0].StudentName == Some("Tyan")
    ensures Seed()[1].Id == 2 && Seed()[1].StudentName == Some("Scul")
  {
  }

  // ---------------------------------------------------------------------
  // First match: `Students.Where(p).FirstOrDefault()`

  /** The predicates the handlers filter with. */
  datatype Key = ById(id: Int32) | ByName(name: string)

  predicate Matches(st: Student, key: Key)
  {
    match key
    case ById(id) => st.Id == id
    case ByName(name) => st.StudentName == Some(name)
  }

  /** `i` is the position of the first record matching `key`. */
  predicate FirstMatchAt(s: seq<Student>, key: Key, i: int)
  {
    0 <= i < |s| && Matches(s[i], key) && forall j :: 0 <= j < i ==> !Matches(s[j], key)
  }

  /** No record matches `key`. */
  predicate NoMatch(s: seq<Student>, key: Key)
  {
    forall j :: 0 <= j < |s| ==> !Matches(s[j], key)
  }

  /** The position of the first record matching `key`, or `None` (the null of
      `FirstOrDefault`) when there is none. */
  function FirstMatch(s: seq<Student>, key: Key): (r: Option<nat>)
    ensures r.Some? ==> FirstMatchAt(s, key, r.value)
    ensures r.None? <==> NoMatch(s, key)
  {
    if |s| == 0 then None
    else if Matches(s[0], key) then Some(0)
    else match FirstMatch(s[1..], key)
      case None => None
      case Some(i) => Some(i + 1)
  }

  /** At most one position is the first match. */
  lemma FirstMatchUnique(s: seq<Student>, key: Key, i: int, k: int)
    requires FirstMatchAt(s, key, i) && FirstMatchAt(s, key, k)
    ensures i == k
  {
  }

  // ---------------------------------------------------------------------
  // The id order

  /** Ids grow strictly along the list. */
  ghost predicate Increasing(s: seq<Student>)
  {
    forall i, j :: 0 <= i < j < |s| ==> s[i].Id < s[j].Id
  }

  /** No two records share an id. */
  ghost predicate UniqueIds(s: seq<Student>)
  {
    forall i, j :: 0 <= i < |s| && 0 <= j < |s| && i != j ==> s[i].Id != s[j].Id
  }

  /** The store invariant: ids are positive and strictly increasing. */
  ghost predicate WellFormed(s: seq<Student>)
  {
    Increasing(s) && forall i :: 0 <= i < |s| ==> s[i].Id > 0
  }

  lemma IncreasingIdsAreUnique(s: seq<Student>)
    requires Increasing(s)
    ensures UniqueIds(s)
  {
  }

  /** The seeded list satisfies the store invariant. */
  lemma SeedWellFormed()
    ensures WellFormed(Seed())
  {
  }

  /** The largest id in a non-empty list. */
  function MaxId(s: seq<Student>): (m: Int32)
    requires |s| > 0
    ensures forall i :: 0 <= i < |s| ==> s[i].Id <= m
    ensures exists i :: 0 <= i < |s| && s[i].Id == m
  {
    if |s| == 1 then s[0].Id
    else
      var rest := MaxId(s[1..]);
      assert forall i :: 1 <= i < |s| ==> s[i] == s[1..][i - 1];
      if s[0].Id >= rest then s[0].Id else rest
  }

  /** While ids increase along the list, the last record carries the largest
      id, so "last id + 1" is "largest id + 1". */
  lemma LastIdIsMaxId(s: seq<Student>)
    requires |s| > 0 && Increasing(s)
    ensures s[|s| - 1].Id == MaxId(s)
  {
  }
}

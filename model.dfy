/** The values the student API works with: C# 32-bit integers, nullable
    references, the stored `Student` record and its transfer shape `StudentDTO`. */
module Model {

  const Int32Min: int := -0x8000_0000
  const Int32Max: int := 0x7fff_ffff

  /** A C# `int`. */
  type Int32 = x: int | -0x8000_0000 <= x <= 0x7fff_ffff

  /** Unchecked C# `int` arithmetic: the mathematical result reduced into the
      32-bit range, as the default (unchecked) context of C# does. */
  function Wrap(x: int): (r: Int32)
    ensures Int32Min <= x <= Int32Max ==> r == x
    ensures x == Int32Max + 1 ==> r == Int32Min
  {
    (x - Int32Min) % 0x1_0000_0000 + Int32Min
  }

  /** A C# reference that may be null: `None` is null. */
  datatype Option<T> = None | Some(value: T)

  /** The stored record. Its four properties are those of the transfer shape. */
  datatype Student = Student(Id: Int32, StudentName: Option<string>, Email: Option<string>, Address: Option<string>)

  /** The transfer shape that requests and responses carry. */
  datatype StudentDTO = StudentDTO(Id: Int32, StudentName: Option<string>, Email: Option<string>, Address: Option<string>)

  /** The four properties of `d` are those of `st`. */
  predicate SameFields(d: StudentDTO, st: Student)
  {
    d.Id == st.Id && d.StudentName == st.StudentName && d.Email == st.Email && d.Address == st.Address
  }

  /** The `new StudentDTO { Id = s.Id, ... }` projection the handlers build. */
  function ToDTO(st: Student): StudentDTO
  {
    StudentDTO(st.Id, st.StudentName, st.Email, st.Address)
  }

  /** Projecting a record copies all four properties, and the copy loses
      nothing: building a record back from it gives the record again. */
  lemma ProjectionCopiesFields(st: Student)
    ensures SameFields(ToDTO(st), st)
    ensures var d := ToDTO(st); Student(d.Id, d.StudentName, d.Email, d.Address) == st
  {
  }
}

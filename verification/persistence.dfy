/** The record mapping behind `University.save_to_file` and `University.load_from_file`:
    every Student and Course becomes a JSON object keyed by its attribute names, and
    loading rebuilds the records from those objects. The JSON text and the file itself
    are not modelled; a saved file is its parsed `Value`. */
module Persistence {
  import opened Wrappers
  import opened Courses
  import opened Students

  /** A parsed JSON value, restricted to the kinds a roster file holds. */
  datatype Value =
    | Int(i: int)
    | Str(s: string)
    | Array(items: seq<Value>)
    | Object(fields: map<string, Value>)

  /** Why a parsed file cannot be loaded. The source raises each of these as an
      uncaught exception (`TypeError`, `KeyError`). */
  datatype DecodeError =
    | NotAnObject                // subscripting or `**`-unpacking a value that is not a mapping
    | MissingKey(key: string)    // `data["students"]` or `data["courses"]` is absent
    | NotAList(key: string)      // the value under a top-level key is not an array
    | BadArguments(ctor: string) // a constructor got a missing or an unexpected keyword argument
    | WrongType(key: string)     // a field holds a JSON kind its record field cannot take

  /** The attributes of a Student object, as `vars(student)` exposes them. */
  datatype StudentData = StudentData(id: int, name: string, age: int, major: string, courses: seq<string>)

  /** Keys of a saved student: the attribute names of a Student object. */
  const StudentKeys: set<string> := {"student_id", "name", "age", "major", "courses"}
  /** Keyword parameters of `Student.__init__`. */
  const StudentParams: set<string> := {"student_id", "name", "age", "major"}
  /** Keys of a saved course, which are also the keyword parameters of `Course.__init__`. */
  const CourseKeys: set<string> := {"course_code", "course_name", "instructor", "credits"}

  /** The attribute values of one student object. */
  function Snapshot(s: Student): (d: StudentData)
    reads s
    ensures d.id == s.id && d.name == s.name && d.age == s.age && d.major == s.major
    ensures d.courses == s.courses
  {
    StudentData(s.id, s.name, s.age, s.major, s.courses)
  }

  /** The attribute values of each student object, in list order. */
  function Snapshots(ss: seq<Student>): (ds: seq<StudentData>)
    reads ss
    ensures |ds| == |ss|
    ensures forall i :: 0 <= i < |ss| ==> ds[i] == Snapshot(ss[i])
  {
    if ss == [] then [] else [Snapshot(ss[0])] + Snapshots(ss[1..])
  }

  /** Snapshots depend only on the student objects themselves. */
  twostate lemma SnapshotsUnchanged(ss: seq<Student>)
    requires forall k :: 0 <= k < |ss| ==> old(allocated(ss[k])) && unchanged(ss[k])
    ensures Snapshots(ss) == old(Snapshots(ss))
  {
  }

  /** A list comprehension `[encode(x) for x in xs]`. */
  function EncodeList<T>(xs: seq<T>, encode: T -> Value): (vs: seq<Value>)
    ensures |vs| == |xs|
    ensures forall i :: 0 <= i < |xs| ==> vs[i] == encode(xs[i])
  {
    seq(|xs|, i requires 0 <= i < |xs| => encode(xs[i]))
  }

  /** A list comprehension `[decode(v) for v in vs]` in which `decode` may raise: the
      first element that fails, in list order, decides the error. */
  function DecodeList<T>(vs: seq<Value>, decode: Value -> Result<T, DecodeError>): (r: Result<seq<T>, DecodeError>)
    ensures r.Success? ==>
      |r.value| == |vs| && forall i :: 0 <= i < |vs| ==> decode(vs[i]) == Success(r.value[i])
    ensures r.Failure? ==>
      exists i :: 0 <= i < |vs| && decode(vs[i]) == Failure(r.error) &&
        forall j :: 0 <= j < i ==> decode(vs[j]).Success?
  {
    if vs == [] then Success([])
    else match decode(vs[0])
      case Failure(e) => Failure(e)
      case Success(x) =>
        match DecodeList(vs[1..], decode)
        case Failure(e) =>
          ghost var k :| 0 <= k < |vs[1..]| && decode(vs[1..][k]) == Failure(e) &&
            forall j :: 0 <= j < k ==> decode(vs[1..][j]).Success?;
          assert decode(vs[k + 1]) == Failure(e);
          Failure(e)
        case Success(xs) => Success([x] + xs)
  }

  /** A course name is saved as a JSON string, which loads back as the same name. */
  function EncodeName(n: string): (v: Value)
    ensures DecodeName(v) == Success(n)
  {
    Str(n)
  }

  /** A saved course name: only a JSON string is one. */
  function DecodeName(v: Value): (r: Result<string, DecodeError>)
    ensures r.Success? <==> v.Str?
    ensures r.Success? ==> v.s == r.value
  {
    if v.Str? then Success(v.s) else Failure(WrongType("courses"))
  }

  /** `vars(student)`: one key per attribute, the course list as an array of strings. */
  function EncodeStudent(d: StudentData): (v: Value)
    ensures v.Object? && v.fields.Keys == StudentKeys
  {
    Object(map[
      "student_id" := Int(d.id),
      "name" := Str(d.name),
      "age" := Int(d.age),
      "major" := Str(d.major),
      "courses" := Array(EncodeList(d.courses, EncodeName))])
  }

  /** Rebuilds a student from a saved object whose keys are exactly the five attribute
      names, restoring its course list as well. */
  function DecodeStudent(v: Value): (r: Result<StudentData, DecodeError>)
    ensures r.Success? ==> v.Object? && v.fields.Keys == StudentKeys
    ensures v.Object? && v.fields.Keys != StudentKeys ==> r == Failure(BadArguments("Student"))
  {
    if !v.Object? then Failure(NotAnObject)
    else if v.fields.Keys != StudentKeys then Failure(BadArguments("Student"))
    else
      var f := v.fields;
      if !f["student_id"].Int? then Failure(WrongType("student_id"))
      else if !f["name"].Str? then Failure(WrongType("name"))
      else if !f["age"].Int? then Failure(WrongType("age"))
      else if !f["major"].Str? then Failure(WrongType("major"))
      else if !f["courses"].Array? then Failure(WrongType("courses"))
      else
        match DecodeList(f["courses"].items, DecodeName)
        case Failure(e) => Failure(e)
        case Success(names) =>
          Success(StudentData(f["student_id"].i, f["name"].s, f["age"].i, f["major"].s, names))
  }

  /** `Student(**record)` as main.py:158 writes it, apart from the field kinds: the
      record is passed as keyword arguments to a constructor that takes only four of the
      five saved keys, and a student built this way starts with no courses. */
  function DecodeStudentAsWritten(v: Value): (r: Result<StudentData, DecodeError>)
    ensures r.Success? ==> v.Object? && v.fields.Keys == StudentParams && r.value.courses == []
    ensures v.Object? && v.fields.Keys != StudentParams ==> r == Failure(BadArguments("Student"))
  {
    if !v.Object? then Failure(NotAnObject)
    else if v.fields.Keys != StudentParams then Failure(BadArguments("Student"))
    else
      var f := v.fields;
      if !f["student_id"].Int? then Failure(WrongType("student_id"))
      else if !f["name"].Str? then Failure(WrongType("name"))
      else if !f["age"].Int? then Failure(WrongType("age"))
      else if !f["major"].Str? then Failure(WrongType("major"))
      else Success(StudentData(f["student_id"].i, f["name"].s, f["age"].i, f["major"].s, []))
  }

  /** `vars(course)`: one key per attribute. */
  function EncodeCourse(c: Course): (v: Value)
    ensures v.Object? && v.fields.Keys == CourseKeys
  {
    Object(map[
      "course_code" := Str(c.code),
      "course_name" := Str(c.name),
      "instructor" := Str(c.instructor),
      "credits" := Int(c.credits)])
  }

  /** `Course(**record)`: the keys must be exactly the four constructor parameters. */
  function DecodeCourse(v: Value): (r: Result<Course, DecodeError>)
    ensures r.Success? ==> v.Object? && v.fields.Keys == CourseKeys
    ensures v.Object? && v.fields.Keys != CourseKeys ==> r == Failure(BadArguments("Course"))
  {
    if !v.Object? then Failure(NotAnObject)
    else if v.fields.Keys != CourseKeys then Failure(BadArguments("Course"))
    else
      var f := v.fields;
      if !f["course_code"].Str? then Failure(WrongType("course_code"))
      else if !f["course_name"].Str? then Failure(WrongType("course_name"))
      else if !f["instructor"].Str? then Failure(WrongType("instructor"))
      else if !f["credits"].Int? then Failure(WrongType("credits"))
      else Success(Course(f["course_code"].s, f["course_name"].s, f["instructor"].s, f["credits"].i))
  }

  /** The whole saved document: `{"students": [...], "courses": [...]}`. */
  function EncodeRoster(students: seq<StudentData>, courses: seq<Course>): (v: Value)
    ensures v.Object? && v.fields.Keys == {"students", "courses"}
    ensures v.fields["students"].Array? && |v.fields["students"].items| == |students|
    ensures v.fields["courses"].Array? && |v.fields["courses"].items| == |courses|
  {
    Object(map[
      "students" := Array(EncodeList(students, EncodeStudent)),
      "courses" := Array(EncodeList(courses, EncodeCourse))])
  }

  /** `data[key]`, which must be present and, to be iterated as a list of records, an array. */
  function ListField(data: Value, key: string): (r: Result<seq<Value>, DecodeError>)
    ensures r.Success? <==> data.Object? && key in data.fields && data.fields[key].Array?
    ensures r.Success? ==> r.value == data.fields[key].items
  {
    if !data.Object? then Failure(NotAnObject)
    else if key !in data.fields then Failure(MissingKey(key))
    else if !data.fields[key].Array? then Failure(NotAList(key))
    else Success(data.fields[key].items)
  }

  /** The students of a loaded document (main.py:158, with the course lists restored). */
  function LoadStudents(data: Value): (r: Result<seq<StudentData>, DecodeError>)
    ensures ListField(data, "students").Failure? ==> r == Failure(ListField(data, "students").error)
    ensures r.Success? ==>
      ListField(data, "students").Success? && |r.value| == |data.fields["students"].items|
  {
    match ListField(data, "students")
    case Failure(e) => Failure(e)
    case Success(vs) => DecodeList(vs, DecodeStudent)
  }


  /** The students of a loaded document as main.py:158 computes them. */
  function LoadStudentsAsWritten(data: Value): (r: Result<seq<StudentData>, DecodeError>)
    ensures ListField(data, "students").Failure? ==> r == Failure(ListField(data, "students").error)
    ensures r.Success? ==>
      ListField(data, "students").Success? && |r.value| == |data.fields["students"].items| &&
      forall i :: 0 <= i < |r.value| ==> r.value[i].courses == []
  {
    match ListField(data, "students")
    case Failure(e) => Failure(e)
    case Success(vs) => DecodeList(vs, DecodeStudentAsWritten)
  }

  /** The courses of a loaded document (main.py:159). */
  function LoadCourses(data: Value): (r: Result<seq<Course>, DecodeError>)
    ensures ListField(data, "courses").Failure? ==> r == Failure(ListField(data, "courses").error)
    ensures r.Success? ==>
      ListField(data, "courses").Success? && |r.value| == |data.fields["courses"].items|
  {
    match ListField(data, "courses")
    case Failure(e) => Failure(e)
    case Success(vs) => DecodeList(vs, DecodeCourse)
  }


  /** Decoding an encoded list gives the list back whenever that holds element by element. */
  lemma {:induction false} DecodeEncodeList<T>(xs: seq<T>, encode: T -> Value, decode: Value -> Result<T, DecodeError>)
    requires forall x :: decode(encode(x)) == Success(x)
    ensures DecodeList(EncodeList(xs, encode), decode) == Success(xs)
  {
    if xs != [] {
      assert EncodeList(xs, encode)[1..] == EncodeList(xs[1..], encode);
      DecodeEncodeList(xs[1..], encode, decode);
      assert xs == [xs[0]] + xs[1..];
    }
  }

  /** A list that decodes is the encoding of what it decodes to, whenever that holds
      element by element: decoding loses nothing. */
  lemma EncodeDecodeList<T>(vs: seq<Value>, encode: T -> Value, decode: Value -> Result<T, DecodeError>)
    requires forall v :: decode(v).Success? ==> encode(decode(v).value) == v
    ensures DecodeList(vs, decode).Success? ==> EncodeList(DecodeList(vs, decode).value, encode) == vs
  {
  }

  /** Loading a saved student restores every attribute, the course list included. */
  lemma StudentRoundTrip(d: StudentData)
    ensures DecodeStudent(EncodeStudent(d)) == Success(d)
  {
    DecodeEncodeList(d.courses, EncodeName, DecodeName);
  }

  /** A student object that loads is exactly the saved form of the student it loads as. */
  lemma StudentRecovered(v: Value)
    requires DecodeStudent(v).Success?
    ensures EncodeStudent(DecodeStudent(v).value) == v
  {
    var f := v.fields;
    EncodeDecodeList(f["courses"].items, EncodeName, DecodeName);
    assert EncodeStudent(DecodeStudent(v).value).fields == f;
  }

  /** Loading a saved course restores every attribute. */
  lemma CourseRoundTrip(c: Course)
    ensures DecodeCourse(EncodeCourse(c)) == Success(c)
  {
  }

  /** A course object that loads is exactly the saved form of the course it loads as. */
  lemma CourseRecovered(v: Value)
    requires DecodeCourse(v).Success?
    ensures EncodeCourse(DecodeCourse(v).value) == v
  {
  }

  /** The students a document loads as are saved back as exactly the document's
      `students` array: loading loses nothing. */
  lemma LoadStudentsRecovered(data: Value)
    requires LoadStudents(data).Success?
    ensures EncodeList(LoadStudents(data).value, EncodeStudent) == data.fields["students"].items
  {
    forall v | DecodeStudent(v).Success?
      ensures EncodeStudent(DecodeStudent(v).value) == v
    {
      StudentRecovered(v);
    }
    EncodeDecodeList(data.fields["students"].items, EncodeStudent, DecodeStudent);
  }

  /** The courses a document loads as are saved back as exactly the document's
      `courses` array: loading loses nothing. */
  lemma LoadCoursesRecovered(data: Value)
    requires LoadCourses(data).Success?
    ensures EncodeList(LoadCourses(data).value, EncodeCourse) == data.fields["courses"].items
  {
    forall v | DecodeCourse(v).Success?
      ensures EncodeCourse(DecodeCourse(v).value) == v
    {
      CourseRecovered(v);
    }
    EncodeDecodeList(data.fields["courses"].items, EncodeCourse, DecodeCourse);
  }

  /** Saving and then loading gives back field-wise equal students and courses, in order. */
  lemma RosterRoundTrip(students: seq<StudentData>, courses: seq<Course>)
    ensures LoadStudents(EncodeRoster(students, courses)) == Success(students)
    ensures LoadCourses(EncodeRoster(students, courses)) == Success(courses)
  {
    forall d ensures DecodeStudent(EncodeStudent(d)) == Success(d) {
      StudentRoundTrip(d);
    }
    forall c ensures DecodeCourse(EncodeCourse(c)) == Success(c) {
      CourseRoundTrip(c);
    }
    DecodeEncodeList(students, EncodeStudent, DecodeStudent);
    DecodeEncodeList(courses, EncodeCourse, DecodeCourse);
  }

  /** Loading as main.py:158 is written fails on every saved roster that holds a student:
      the saved `courses` key is an unexpected keyword argument of `Student.__init__`. */
  lemma AsWrittenLoadRejectsSavedStudents(students: seq<StudentData>, courses: seq<Course>)
    requires students != []
    ensures LoadStudentsAsWritten(EncodeRoster(students, courses)) == Failure(BadArguments("Student"))
  {
    var vs := EncodeList(students, EncodeStudent);
    assert "courses" in EncodeStudent(students[0]).fields.Keys - StudentParams;
    assert DecodeStudentAsWritten(vs[0]) == Failure(BadArguments("Student"));
  }

  /** The roster of the demonstration at the end of main.py, loaded back as main.py:158
      is written: the very first student record is rejected. */
  lemma AsWrittenDemoLoadFails()
    ensures
      var alice := StudentData(1, "Alice Johnson", 20, "Computer Science", ["Introduction to Computer Science"]);
      var bob := StudentData(2, "Bob Brown", 22, "Mathematics", ["Calculus I"]);
      var cs101 := Course("CS101", "Introduction to Computer Science", "Dr. Smith", 3);
      var math101 := Course("MATH101", "Calculus I", "Prof. Johnson", 4);
      LoadStudentsAsWritten(EncodeRoster([alice, bob], [cs101, math101])) == Failure(BadArguments("Student"))
  {
    var alice := StudentData(1, "Alice Johnson", 20, "Computer Science", ["Introduction to Computer Science"]);
    var bob := StudentData(2, "Bob Brown", 22, "Mathematics", ["Calculus I"]);
    var cs101 := Course("CS101", "Introduction to Computer Science", "Dr. Smith", 3);
    var math101 := Course("MATH101", "Calculus I", "Prof. Johnson", 4);
    AsWrittenLoadRejectsSavedStudents([alice, bob], [cs101, math101]);
  }
}

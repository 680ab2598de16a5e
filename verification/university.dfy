/** The `University` class of main.py: the roster that owns the students and the courses. */
module Universities {
  import opened Wrappers
  import opened Courses
  import opened Students
  import opened Persistence
  import Lists

  /** Position of the first student, in insertion order, whose id is `id`. */
  function StudentIndex(ss: seq<Student>, id: int): (r: Option<nat>)
    ensures r.Some? ==>
      r.value < |ss| && ss[r.value].id == id && forall k :: 0 <= k < r.value ==> ss[k].id != id
    ensures r.None? <==> forall k :: 0 <= k < |ss| ==> ss[k].id != id
  {
    if ss == [] then None
    else if ss[0].id == id then Some(0)
    else match StudentIndex(ss[1..], id)
      case None => None
      case Some(i) => Some(i + 1)
  }

  /** Position of the first course, in insertion order, whose code is `code`. */
  function CourseIndex(cs: seq<Course>, code: string): (r: Option<nat>)
    ensures r.Some? ==>
      r.value < |cs| && cs[r.value].code == code && forall k :: 0 <= k < r.value ==> cs[k].code != code
    ensures r.None? <==> forall k :: 0 <= k < |cs| ==> cs[k].code != code
  {
    if cs == [] then None
    else if cs[0].code == code then Some(0)
    else match CourseIndex(cs[1..], code)
      case None => None
      case Some(i) => Some(i + 1)
  }

  /** Appending a student leaves every earlier match in place and makes the new student
      the match for its id when no earlier student has that id. */
  lemma {:induction false} StudentIndexAppend(ss: seq<Student>, s: Student, id: int)
    ensures StudentIndex(ss + [s], id) ==
      if StudentIndex(ss, id).Some? then StudentIndex(ss, id)
      else if s.id == id then Some(|ss|)
      else None
  {
    if ss != [] && ss[0].id != id {
      assert (ss + [s])[1..] == ss[1..] + [s];
      StudentIndexAppend(ss[1..], s, id);
    }
  }

  /** Appending a course leaves every earlier match in place and makes the new course
      the match for its code when no earlier course has that code. */
  lemma {:induction false} CourseIndexAppend(cs: seq<Course>, c: Course, code: string)
    ensures CourseIndex(cs + [c], code) ==
      if CourseIndex(cs, code).Some? then CourseIndex(cs, code)
      else if c.code == code then Some(|cs|)
      else None
  {
    if cs != [] && cs[0].code != code {
      assert (cs + [c])[1..] == cs[1..] + [c];
      CourseIndexAppend(cs[1..], c, code);
    }
  }

  /** The file `load_from_file` opens: missing, or present with its parsed contents. */
  datatype StoredFile = Missing | Present(contents: Value)

  /** What `load_from_file` reports: a completed load, the "no data file found" message,
      or the exception the source lets propagate. */
  datatype LoadOutcome = Loaded | NoFile | Failed(error: DecodeError)

  /** Fresh student objects with the given attribute values, one per record, in order
      (the list comprehension of main.py:158). */
  method NewStudents(ds: seq<StudentData>) returns (built: seq<Student>)
    ensures Snapshots(built) == ds
    ensures forall k :: 0 <= k < |built| ==> fresh(built[k])
  {
    built := [];
    for i := 0 to |ds|
      invariant |built| == i
      invariant forall k :: 0 <= k < i ==> fresh(built[k]) && Snapshot(built[k]) == ds[k]
    {
      var d := ds[i];
      var s := new Student(d.id, d.name, d.age, d.major);
      s.courses := d.courses;
      built := built + [s];
    }
  }

  class University {
    var students: seq<Student>
    var courses: seq<Course>

    constructor ()
      ensures students == [] && courses == []
    {
      students := [];
      courses := [];
    }

    /** Appends; a student whose id is already present is not rejected. */
    method AddStudent(student: Student)
      modifies this
      ensures students == old(students) + [student]
      ensures courses == old(courses)
    {
      students := students + [student];
    }

    /** Appends; a course whose code is already present is not rejected. */
    method AddCourse(course: Course)
      modifies this
      ensures courses == old(courses) + [course]
      ensures students == old(students)
    {
      courses := courses + [course];
    }

    /** The first student whose id is `id`, or `None` when there is none. */
    method GetStudentById(id: int) returns (r: Option<Student>)
      ensures r.None? <==> forall k :: 0 <= k < |students| ==> students[k].id != id
      ensures r.Some? ==> r.value == students[StudentIndex(students, id).value]
    {
      for i := 0 to |students|
        invariant forall k :: 0 <= k < i ==> students[k].id != id
      {
        if students[i].id == id {
          return Some(students[i]);
        }
      }
      return None;
    }

    /** The first course whose code is `code`, or `None` when there is none. */
    method GetCourseByCode(code: string) returns (r: Option<Course>)
      ensures r.None? <==> forall k :: 0 <= k < |courses| ==> courses[k].code != code
      ensures r.Some? ==> r.value == courses[CourseIndex(courses, code).value]
    {
      for i := 0 to |courses|
        invariant forall k :: 0 <= k < i ==> courses[k].code != code
      {
        if courses[i].code == code {
          return Some(courses[i]);
        }
      }
      return None;
    }

    /** Removes the first student whose id is `id`, keeping the others in order;
        `removed` is false (the source prints "Student not found.") when there is none,
        and then nothing changes. */
    method RemoveStudent(id: int) returns (removed: bool)
      modifies this
      ensures removed <==> StudentIndex(old(students), id).Some?
      ensures !removed ==> students == old(students)
      ensures removed ==>
        var i := StudentIndex(old(students), id).value;
        students == old(students)[..i] + old(students)[i + 1..]
      ensures courses == old(courses)
    {
      var found := GetStudentById(id);
      if found.Some? {
        // `list.remove` deletes the first entry that is this very object, which is
        // the first match: an earlier entry that were this object would match too.
        var s := found.value;
        var i := StudentIndex(students, id).value;
        assert students[i] == s;
        assert s !in students[..i] by {
          assert forall k :: 0 <= k < i ==> students[..i][k].id != id;
        }
        Lists.IndexOfAt(students, s, i);
        Lists.RemoveFirstAt(students, s);
        students := Lists.RemoveFirst(students, s);
        removed := true;
      } else {
        removed := false;
      }
    }

    /** The document `save_to_file` writes: every attribute of every student and course. */
    method SaveToFile() returns (contents: Value)
      ensures contents == EncodeRoster(Snapshots(students), courses)
    {
      contents := EncodeRoster(Snapshots(students), courses);
    }

    /** Replaces the students and then the courses with fresh objects rebuilt from the
        file. A missing file changes nothing. A document whose students cannot be
        rebuilt changes nothing; one whose courses cannot be rebuilt leaves the students
        already replaced, because the source assigns the two lists one after the other. */
    method LoadFromFile(file: StoredFile) returns (outcome: LoadOutcome)
      modifies this
      ensures file.Missing? ==>
        outcome == NoFile && students == old(students) && courses == old(courses)
      ensures file.Present? && LoadStudents(file.contents).Failure? ==>
        outcome == Failed(LoadStudents(file.contents).error) &&
        students == old(students) && courses == old(courses)
      ensures file.Present? && LoadStudents(file.contents).Success? ==>
        Snapshots(students) == LoadStudents(file.contents).value &&
        forall k :: 0 <= k < |students| ==> fresh(students[k])
      ensures file.Present? && LoadStudents(file.contents).Success? && LoadCourses(file.contents).Success? ==>
        outcome == Loaded && courses == LoadCourses(file.contents).value
      ensures file.Present? && LoadStudents(file.contents).Success? && LoadCourses(file.contents).Failure? ==>
        outcome == Failed(LoadCourses(file.contents).error) && courses == old(courses)
    {
      if file.Missing? {
        return NoFile;
      }
      var data := file.contents;
      var decoded := LoadStudents(data);
      if decoded.Failure? {
        return Failed(decoded.error);
      }
      var built := NewStudents(decoded.value);
      label Built:
      students := built;
      var loadedCourses := LoadCourses(data);
      if loadedCourses.Failure? {
        SnapshotsUnchanged@Built(built);
        return Failed(loadedCourses.error);
      }
      courses := loadedCourses.value;
      SnapshotsUnchanged@Built(built);
      return Loaded;
    }
  }

  /** Saving a roster and loading the file into a new one gives field-wise equal students
      and equal courses, in the same order, held by fresh student objects. */
  method SaveThenLoad(original: University) returns (copy: University, outcome: LoadOutcome)
    ensures fresh(copy)
    ensures outcome == Loaded
    ensures Snapshots(copy.students) == Snapshots(original.students)
    ensures copy.courses == original.courses
    ensures forall k :: 0 <= k < |copy.students| ==> fresh(copy.students[k])
  {
    var contents := original.SaveToFile();
    ghost var saved := Snapshots(original.students);
    RosterRoundTrip(saved, original.courses);
    copy := new University();
    label Saved:
    outcome := copy.LoadFromFile(Present(contents));
    SnapshotsUnchanged@Saved(original.students);
  }
}

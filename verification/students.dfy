/** The `Student` class of main.py: fixed identity fields and a mutable list of course names. */
module Students {
  import Lists

  class Student {
    // Identity fields: the source assigns them only in the constructor.
    const id: int
    const name: string
    const age: int
    const major: string
    /** Names (not codes) of the courses the student is enrolled in, in enrolment order;
        duplicates are allowed. */
    var courses: seq<string>

    constructor (id: int, name: string, age: int, major: string)
      ensures this.id == id && this.name == name && this.age == age && this.major == major
      ensures courses == []
    {
      this.id := id;
      this.name := name;
      this.age := age;
      this.major := major;
      courses := [];
    }

    /** Enrols unconditionally: no duplicate check and no check against any course registry. */
    method AddCourse(course: string)
      modifies this
      ensures courses == old(courses) + [course]
    {
      courses := courses + [course];
    }

    /** Drops the first enrolment named `course`; `removed` is false (the source prints a
        "not in the student's courses" message) when there is none, and then nothing changes. */
    method RemoveCourse(course: string) returns (removed: bool)
      modifies this
      ensures removed <==> course in old(courses)
      ensures !removed ==> courses == old(courses)
      ensures removed ==>
        var i := Lists.IndexOf(old(courses), course);
        courses == old(courses)[..i] + old(courses)[i + 1..]
      ensures removed ==> |courses| == |old(courses)| - 1
      ensures multiset(courses) == multiset(old(courses)) - multiset{course}
    {
      removed := course in courses;
      Lists.RemoveFirstMultiset(courses, course);
      if removed {
        Lists.RemoveFirstAt(courses, course);
      }
      courses := Lists.RemoveFirst(courses, course);
    }

    /** The current enrolments, in order. */
    method GetCourses() returns (r: seq<string>)
      ensures r == courses
    {
      r := courses;
    }
  }
}

# University roster manager, modelled in Dafny

A model of a small in-memory roster manager (`main.py`) with three parts:

- a **Student** holds an id, name, age and major. It also holds a mutable, ordered list of
  course names. Courses are added by appending and removed at their first occurrence.
- a **Course** is a four-field record with no operations.
- a **University** holds an ordered list of students and one of courses. It supports
  adding to either list, first-match lookup by student id and by course code, and removal
  of the first student with a given id. It can also save the whole roster as a document
  keyed by attribute names and load it back, replacing both lists.

Files:

- `wrappers.dfy` defines `Option` (the source's `None`) and `Result` (an exception the source raises).
- `lists.dfy` models the list removal the source uses: a membership test and `list.remove`. `IndexOf` is the position `list.remove` deletes at.
- `courses.dfy` defines the `Course` record.
- `students.dfy` is the `Student` class. It has `const` identity fields and a `courses` sequence that its methods reassign.
- `persistence.dfy` holds the record mapping of save and load over an abstract JSON value, with both round trips.
- `university.dfy` is the `University` class. Its lookups are specified by first-match index functions.

Students are objects: the university holds references to them, and a `Student` can
still be changed through another reference after it is added, as in the source. Courses are
values. A saved file is modelled by its parsed JSON `Value`. A load is given a
`StoredFile`, which is either `Missing` or `Present(contents)`.

Two behaviours of `main.py` shape the model:

- loading is not all-or-nothing, and the model follows the code there. The student list is
  assigned before the course list is decoded, so a document whose courses are malformed
  leaves the students already replaced (`LoadFromFile`).
- as written, loading fails on any saved roster that holds a student (see Findings). The
  model uses the evidently intended behaviour: a student record must carry the five saved
  keys, and the course list is restored with each student. A four-key record, which the
  source would accept as a student with no courses, is rejected (see "## Left out").

## Model

| member | source | states |
|---|---|---|
| `Lists.IndexOf` | main.py:33-34 | the position `list.remove` deletes at holds the name, and no earlier entry does |
| `Lists.RemoveFirst` | main.py:33-34 | removing a name shortens the list by one exactly when the name is present; otherwise the list is unchanged |
| `Lists.RemoveFirstMultiset` | main.py:33-34 | removing a name takes exactly one copy of it out of the entries and keeps all other entries |
| `Lists.RemoveFirstAt` | main.py:33-34 | removing a present name deletes exactly its first occurrence and keeps all other entries in their relative order |
| `Lists.IndexOfAt` | main.py:97-99 | an entry with no equal entry before it is the first occurrence; this is why `list.remove` on the looked-up student deletes the first id match |
| `Students.Student.constructor` | main.py:4-17 | the new student has exactly the given id, name, age and major, and no courses |
| `Students.Student.AddCourse` | main.py:19-25 | the course list becomes the old list with the name appended at the end; the identity fields cannot change |
| `Students.Student.RemoveCourse` | main.py:27-36 | reports whether the name was enrolled; if so, deletes exactly its first occurrence, keeps the order of the rest, and the length drops by one; if not, the list is unchanged |
| `Students.Student.GetCourses` | main.py:38-44 | returns the current enrolments in order |
| `Persistence.Snapshot` | main.py:143 | the record of one student holds exactly that student's id, name, age, major and course list |
| `Persistence.EncodeList` | main.py:143-144 | a list comprehension over records gives one saved entry per element, position by position |
| `Persistence.EncodeName` | main.py:143 | a course name is saved as a JSON string that loads back as the same name |
| `Persistence.DecodeName` | main.py:158 | only a JSON string loads as a course name, and it loads as that string |
| `Persistence.Snapshots` | main.py:143 | one attribute record per student, position by position |
| `Persistence.DecodeList` | main.py:158-159 | a list comprehension over saved records succeeds with one decoded record per element, in order; when it fails, the error is that of the first failing element |
| `Persistence.EncodeStudent` | main.py:143 | a saved student has exactly the keys `student_id`, `name`, `age`, `major`, `courses` |
| `Persistence.DecodeStudent` | main.py:158 | a student record loads only if its keys are exactly the five saved attribute names; other key sets are a bad-arguments error |
| `Persistence.DecodeStudentAsWritten` | main.py:158 | `Student(**record)` accepts only the four constructor parameters as keys, and the student it builds has no courses |
| `Persistence.EncodeCourse` | main.py:144 | a saved course has exactly the keys `course_code`, `course_name`, `instructor`, `credits` |
| `Persistence.DecodeCourse` | main.py:159 | a course record loads only if its keys are exactly the four constructor parameters |
| `Persistence.EncodeRoster` | main.py:142-145 | the saved document has exactly the keys `students` and `courses`, each an array with one entry per student or course |
| `Persistence.ListField` | main.py:158-159 | `data[key]` yields the array stored under the key; it fails if the document is not an object, if the key is absent, or if the value is not an array |
| `Persistence.LoadStudents` | main.py:158 | corrected decoding (see Findings): fails with the error of `data["students"]` when that lookup fails; on success gives one student per saved entry |
| `Persistence.LoadStudentsAsWritten` | main.py:158 | fails with the error of `data["students"]` when that lookup fails; on success gives one student per saved entry, each with no courses |
| `Persistence.LoadCourses` | main.py:159 | fails with the error of `data["courses"]` when that lookup fails; on success gives one course per saved entry |
| `Persistence.LoadStudentsRecovered` | main.py:143-158 | corrected decoding: the students a document loads as are saved back as exactly its `students` array |
| `Persistence.LoadCoursesRecovered` | main.py:144-159 | the courses a document loads as are saved back as exactly its `courses` array |
| `Persistence.DecodeEncodeList` | main.py:142-159 | a list of records saved and loaded element by element comes back unchanged |
| `Persistence.EncodeDecodeList` | main.py:142-159 | a list that loads is exactly the saved form of what it loads as |
| `Persistence.StudentRoundTrip` | main.py:142-158 | saving then loading a student restores every attribute, course list included |
| `Persistence.StudentRecovered` | main.py:142-158 | a student record that loads is the saved form of the loaded student |
| `Persistence.CourseRoundTrip` | main.py:142-159 | saving then loading a course restores every attribute |
| `Persistence.CourseRecovered` | main.py:142-159 | a course record that loads is the saved form of the loaded course |
| `Persistence.RosterRoundTrip` | main.py:142-159 | loading a saved document gives back field-wise equal students and courses in the same order |
| `Persistence.AsWrittenLoadRejectsSavedStudents` | main.py:158 | as written, loading any saved document that holds a student fails with a bad-arguments error |
| `Persistence.AsWrittenDemoLoadFails` | main.py:168-192 | as written, reloading the demonstration roster (Alice and Bob) fails |
| `Universities.StudentIndex` | main.py:119-122 | the first student in insertion order with the id; absent exactly when no student has it |
| `Universities.CourseIndex` | main.py:131-134 | the first course in insertion order with the code; absent exactly when no course has it |
| `Universities.StudentIndexAppend` | main.py:83-122 | after a student is appended, lookup by its id finds it unless an earlier student has that id; other lookups are unaffected |
| `Universities.CourseIndexAppend` | main.py:104-134 | after a course is appended, lookup by its code finds it unless an earlier course has that code; other lookups are unaffected |
| `Universities.NewStudents` | main.py:158 | builds fresh student objects whose attributes equal the loaded records, in order |
| `Universities.University.constructor` | main.py:76-81 | a new university has no students and no courses |
| `Universities.University.AddStudent` | main.py:83-89 | appends the student; courses unchanged |
| `Universities.University.AddCourse` | main.py:104-110 | appends the course; students unchanged |
| `Universities.University.GetStudentById` | main.py:112-122 | returns the first student with the id; `None` exactly when no student has it |
| `Universities.University.GetCourseByCode` | main.py:124-134 | returns the first course with the code; `None` exactly when no course has it |
| `Universities.University.RemoveStudent` | main.py:91-102 | reports whether a student had the id; if so, removes exactly the first one and keeps the others in order; if not, the list is unchanged; courses are never touched |
| `Universities.University.SaveToFile` | main.py:136-147 | the written document is the encoding of every student's attributes and every course, in order |
| `Universities.University.LoadFromFile` | main.py:149-161 | corrected decoding (see Findings). A missing file changes nothing; otherwise the students are replaced by fresh objects equal to the stored records, then the courses by the stored courses; a decoding error stops at the step where it occurs |
| `Universities.SaveThenLoad` | main.py:136-161 | corrected decoding (see Findings). Saving a university and loading the file into a new one gives field-wise equal students and equal courses, in the same order |

## Left out

- File I/O and the `json` library: a saved file is its parsed `Value`. The file name parameter and the default `university_data.json` are not modelled. A file that exists but is not valid JSON, or cannot be read, is not modelled.
- JSON `null`, booleans and floats are not modelled. A field of the wrong JSON kind is a `WrongType` load error in the model. Python would store the value without checking it.
- A `students` or `courses` entry that is an iterable other than an array (an object or a string) is a `NotAList` error in the model. Python would iterate it.
- `print` messages are replaced by boolean or outcome results: `removed` in `RemoveCourse` and `RemoveStudent`, and `NoFile` in `LoadFromFile`.
- `__str__` of `Student` and `Course` is display-only text and is not modelled.
- The demonstration script at the end of `main.py` is not modelled. Its data appears only in `AsWrittenDemoLoadFails`.
- Students.Student.GetCourses: returns a copy of the sequence. The source returns the live list, so a caller could change the enrolments through it; that aliasing is not modelled.
- Persistence.DecodeStudent: rejects a student record with only the four keys `student_id`, `name`, `age`, `major` (a `BadArguments("Student")` error). The source loads such a record as a student with no courses. The corrected decoding requires the five keys it saves, so that every record it accepts re-saves unchanged.
- Identity fields of `Student` are `const`. The source never reassigns them, but Python would allow a caller to.

## Findings

| source | as written | input that shows it | evidently intended | confidence | as-written member | corrected member |
|---|---|---|---|---|---|---|
| main.py:158 | `Student(**student)` passes every saved key as a keyword argument. The saved record includes `courses`, and `Student.__init__` takes only `student_id`, `name`, `age`, `major`. So loading raises `TypeError` for any saved student. | the demonstration roster: `Student(1, "Alice Johnson", 20, "Computer Science")` enrolled in "Introduction to Computer Science", saved and loaded | loading rebuilds each student with its course list, so that save then load gives field-wise equal students | high (not executed) | `Persistence.AsWrittenLoadRejectsSavedStudents` | `Persistence.RosterRoundTrip` |

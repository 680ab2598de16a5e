/** The `Course` record of main.py. */
module Courses {

  /** One course offering: code, display name, instructor and credit count.
      The source defines no operation that changes a course after construction. */
  datatype Course = Course(code: string, name: string, instructor: string, credits: int)
}

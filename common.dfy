/** Shapes shared by the modules: optional values, results, and a JSON object
    member as Python's dictionary access sees it. */
module Common {

  datatype Option<+T> = None | Some(value: T)

  /** The value of an operation that either succeeds or raises. */
  datatype Result<+T, +E> = Ok(value: T) | Err(error: E)

  /** A member of a decoded JSON object: the key is missing, present with
      `null`, or present with a value. The distinction matters wherever the
      Python scripts call a method on the member or iterate over it, because a
      `null` there raises. */
  datatype Field<+T> = Absent | Null | Present(value: T)
}

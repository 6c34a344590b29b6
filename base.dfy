/** Small value wrappers shared by every module of the model. */
module Base {

  datatype Option<+T> = None | Some(value: T)

  datatype Result<+T, +E> = Ok(value: T) | Err(error: E)

  /** A JavaScript property that is missing (`undefined`), explicitly `null`,
      or present with a value: the shape of a zod `.nullable().optional()` field. */
  datatype Maybe<+T> = Absent | Null | Present(value: T)

  /** `x ?? null`: both missing and null become null. */
  function OrNull<T>(m: Maybe<T>): (r: Option<T>)
    ensures r.Some? <==> m.Present?
    ensures r.Some? ==> r.value == m.value
  {
    if m.Present? then Some(m.value) else None
  }
}

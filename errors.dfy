/** Failure values shared by every part of the model: the exceptions the
    simulator raises become `Err` results instead of control transfers. */
module Errors {

  /** The kinds of exception the core raises. */
  datatype Error =
    | UnsupportedGate(gate: string)                      // stabilizer backend: gate outside its table
    | RangeError(register: string, index: int, size: int) // shared qubit-index guard
    | ArityError(gate: string, expected: int, got: int)  // wrong number of qubit parameters
    | IndexError                                         // Python list/array subscript out of bounds
    | UnpackError                                        // Python tuple unpacking with the wrong count
    | MaskError                                          // dense backend: measurement masks cannot be built
    | UndefinedRegister(name: string)                    // name not bound in a symbol table

  datatype Result<T> = Ok(value: T) | Err(error: Error)

  datatype Option<T> = None | Some(value: T)

  /** Python's subscript rule for a container of length `len`: indices
      `-len .. len-1` are accepted, negative ones counting from the end. */
  function PyIndex(i: int, len: nat): (k: Option<nat>)
    ensures k.Some? <==> -(len as int) <= i < len
    ensures k.Some? ==> k.value < len && (k.value == i || k.value == i + len)
    ensures 0 <= i < len ==> k == Some(i)
  {
    if 0 <= i < len then Some(i)
    else if -(len as int) <= i < 0 then Some(i + len)
    else None
  }
}

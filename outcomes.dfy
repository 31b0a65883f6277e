/** Optional values, the errors the scheme converter raises, and results
    that carry either a value or one of those errors. */
module Outcomes {

  datatype Option<T> = None | Some(value: T)

  /** The exceptions of viramp_hub/scheme.py, one constructor per raise site
      or per builtin that raises. */
  datatype Error =
    | MissingField                  // IndexError: a BED line with too few tab fields
    | BadCoordinate(text: string)   // ValueError from int() on a start or end field
    | UnrecognizedName(name: string) // the primer name does not match the amplicon pattern
    | UnmappedPrimer(name: string)   // the primer name is not listed in the amplicon info
    | RefMismatch                    // 'ref error': reference differs from the amplicon's
    | PoolMismatch                   // 'pool_error': pool differs from the amplicon's
    | EmptySelection                 // min()/max() over no primer of the wanted strand

  datatype Result<T> = Ok(value: T) | Err(error: Error) {
    predicate IsFailure() { Err? }

    function PropagateFailure<U>(): Result<U>
      requires Err?
    {
      Err(error)
    }

    function Extract(): T
      requires Ok?
    {
      value
    }
  }
}

/** Small generic types shared by the modules of this project. */
module Common {

  datatype Option<+T> = None | Some(value: T)

  datatype Result<+T, +E> = Ok(value: T) | Err(error: E)

  /** The two participant slots of a match; slot numbers are 1 and 2. */
  datatype Pair<T> = Pair(first: T, second: T)
  {
    function At(slot: int): T
    {
      if slot == 1 then first else second
    }

    function With(slot: int, value: T): Pair<T>
    {
      if slot == 1 then Pair(value, second) else Pair(first, value)
    }
  }

  /** The order of strings by code points. */
  predicate Before(a: string, b: string)
  {
    if a == "" then true
    else if b == "" then false
    else if a[0] != b[0] then a[0] < b[0]
    else Before(a[1..], b[1..])
  }
}

/** Optional values (the C# `null` / `Nullable<T>` of the source) and results of
    operations that can throw (the source's exceptions become the `Err` case). */
module Wrappers {

  datatype Option<+T> = None | Some(value: T)

  datatype Result<+T> = Ok(value: T) | Err(error: string)
}

/**
 * The outcome of a fallible operation of the serialization algebra: a success,
 * or an error with a diagnostic reason and, where the operation has one, a
 * best-effort partial value.
 */
module Results {
  import opened Tags

  /** What an error message reports; the tags it names are part of the message. */
  datatype Reason =
    | NotANumber
    | NotAString
    /** getStream names no input; getList names the input. */
    | NotAList(subject: Option<Tag>)
    | MergeToListNotAList(input: Tag)
    | KeyNotString(key: Tag)
    | MergeToMapNotAMap(target: Tag)
    | KeysNotStrings(keys: seq<Tag>)
    | NotAMap(input: Tag)

  datatype DataResult<T> =
    | Success(value: T)
    | Error(reason: Reason, partial: Option<T>)
}

/** Outcome datatypes shared by every module: a Java `null` becomes `None`,
 *  a thrown exception becomes `Err` carrying the exception's class name. */
module Wrappers {

  datatype Option<T> = None | Some(value: T)

  datatype Result<T> = Ok(value: T) | Err(error: string)

  /** Names of the Java exceptions the model distinguishes. */
  const JSON_EXCEPTION := "JSONException"
  const ILLEGAL_ARGUMENT := "IllegalArgumentException"
  const NUMBER_FORMAT := "NumberFormatException"
  const NULL_POINTER := "NullPointerException"
  const NO_SUCH_ELEMENT := "NoSuchElementException"
  const ARRAY_INDEX := "ArrayIndexOutOfBoundsException"
  const RUNTIME := "RuntimeException"
  const INDEX_OUT_OF_BOUNDS := "IndexOutOfBoundsException"
  const INITIALIZER_ERROR := "ExceptionInInitializerError"
}

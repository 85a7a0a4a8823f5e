/** Option, used where the timeline model or the clip manager returns a null pointer or a sentinel for "nothing". */
module Base {

  datatype Option<T> = None | Some(value: T)

}

/** A value that may be missing: a null pointer, an invalid key, a lookup that found nothing. */
module Options {

  datatype Option<T> = None | Some(value: T)
}

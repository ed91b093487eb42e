/** The optional value used where Go has a value that may be nil (a cache entry, an embed footer, a reply). */
module Options {

  datatype Option<+T> = None | Some(value: T)
}

/** An optional value, for absent command-line arguments and failed searches. */
module Options {

  datatype Option<+T> = None | Some(value: T)
}

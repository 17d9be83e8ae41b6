/** The JavaScript `null` that several operations of the bot return or store. */
module Options {

  datatype Option<+T> = None | Some(value: T)
}

/** The optional value used for every "may be absent" result in the model
    (`undefined`/`null` on the TypeScript side). */
module Options {

  datatype Option<+T> = None | Some(value: T)

}

/** The optional value used throughout the model: `None` stands for JavaScript's
    `null` or `undefined` wherever the source returns or accepts one of them. */
module Options {

  datatype Option<+T> = None | Some(value: T)
}

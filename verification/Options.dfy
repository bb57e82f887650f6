/** The optional value and the fallible result shared by the components of the model. */
module Options {

  datatype Option<+T> = None | Some(value: T)

  datatype Result<+T> = Success(value: T) | Failure(error: string)
}

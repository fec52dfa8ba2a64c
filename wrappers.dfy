/** The optional values of the TypeScript source (`error?`, `line?`, `e.mark`, `word`). */
module Wrappers {

  datatype Option<+T> = None | Some(value: T)

}

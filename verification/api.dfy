/** The JSON envelope every backend handler answers with: `{success, data?, error?}`. */
module Api {

  datatype Reply<+T> =
    | Success(status: int, data: T)
    | Failure(status: int, error: string)
}

/** What a controller answers: a status code with data, or a status code with a message. */
module Http {

  datatype Reply<T> = Success(code: nat, data: T) | Failure(code: nat, message: string)
}

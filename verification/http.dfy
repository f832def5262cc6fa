/** What a middleware stage does with a request: either it calls the next
    handler `fn` (`Next`), or it answers the request itself with an error
    status and message and `fn` never runs (`Halt`). */
module Http {
  import opened Store

  const StatusBadRequest: nat := 400
  const StatusInternalServerError: nat := 500

  datatype Handled<T> =
    | Next(session: Session, value: T)
    | Halt(session: Session, status: nat, message: string)
}

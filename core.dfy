// The client core's error type, the events that complete its pending requests, and the
// result and option wrappers its operations resolve to.
module Core {
  import opened Routing

  datatype Option<T> = None | Some(value: T)

  /** The errors the client core reports (the variants its request logic produces). */
  datatype CoreError =
    | OperationAborted
    | ReceivedUnexpectedEvent
    | ReceivedUnexpectedData
    | OperationForbiddenForClient
    | RootDirectoryAlreadyExists
    | RoutingInterfaceError(cause: InterfaceError)
    | MutationFailure(mutatedId: DataIdentifier, reason: MutationError)
    | GetFailure(fetchedId: DataIdentifier, getReason: GetError)

  /** `Result<T, CoreError>`: what every future of the client resolves to. */
  datatype Result<T> = Ok(value: T) | Err(error: CoreError)

  /** Account statistics a get-account-info request returns: (data stored, space available). */
  type AccountStats = (nat, nat)

  /** What completes a pending request: the routing event loop, or the client itself when it
      can answer at once, sends one of these through the request's completion handle. */
  datatype CoreEvent =
    | Get(getResult: Result<Data>)
    | Mutation(mutationResult: Result<()>)
    | AccountInfo(accountInfoResult: Result<AccountStats>)

  /** The `From<InterfaceError>` conversion applied to a failed send. */
  function SendError(e: InterfaceError): (ce: CoreError) {
    RoutingInterfaceError(e)
  }

  /** True when `e` is a mutation failure for the reason `why`, whatever data it names. */
  predicate IsMutationFailure(e: CoreError, why: MutationError) {
    e.MutationFailure? && e.reason == why
  }
}

/** What the hooks receive from the hosted backend.  The backend itself is
    not modelled: each call's reply is an input to the local state update. */
module Remote {
  import opened JsValues

  /** The signed-in user as `useAuth` exposes it. */
  datatype User = User(id: Value)

  /** A backend error.  `missingTable` stands for the outcome of matching the
      message against "does not exist" (useAddresses.js:36-38). */
  datatype RemoteError = RemoteError(message: string, missingTable: bool)

  /** Reply of a single-row call (`insert/update ... .select().single()`). */
  datatype RowReply = RowReply(data: Option<Record>, error: Option<RemoteError>)

  /** Reply of a list query; `data` is `None` when it is null or not an array. */
  datatype ListReply = ListReply(data: Option<seq<Record>>, error: Option<RemoteError>, status: int)

  /** The `error` a hook hands back: its own message, or the backend's error. */
  datatype Failure = Message(text: string) | Backend(cause: RemoteError)

  /** The `{ data, error }` object a hook action returns. */
  datatype CallResult = CallResult(data: Option<Record>, error: Option<Failure>)

  const NotSignedInMessage := "Utilisateur non connecté"

  /** `user?.id` is truthy. */
  predicate HasUserId(user: Option<User>)
  {
    user.Some? && Truthy(user.value.id)
  }

  function BackendError(e: Option<RemoteError>): Option<Failure>
  {
    match e
    case None => None
    case Some(c) => Some(Backend(c))
  }

  /** The `{ data, error }` that the backend's reply becomes. */
  function Passthrough(reply: RowReply): CallResult
  {
    CallResult(reply.data, BackendError(reply.error))
  }
}

/** Vocabulary shared by every `useAsync` variant: the status tag, how a promise settles,
    and the message a reducer throws for an action type it has no case for. */
module AsyncStatus {

  /** The `status` tag of an `AsyncState`. */
  datatype Status = Idle | Pending | Resolved | Rejected

  /** How an awaited promise settles: fulfilled with data, or rejected with an error. */
  datatype Settlement<D, E> = Fulfilled(data: D) | RejectedWith(error: E)

  /** The message of the `Error` thrown by a reducer's `default` branch. */
  function UnhandledActionType(actionType: string): string
  {
    "Unhandled action type: " + actionType
  }
}

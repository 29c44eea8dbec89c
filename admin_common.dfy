/** What the admin approval pages share: the two actions and when they are offered. */
module AdminCommon {

  /** The host the admin pages post to (they do not use the URL table of the config file). */
  const ProductionApi: string := "https://ezkoreav20-production.up.railway.app"

  datatype Action = Approve | Reject

  /** The last path segment of an action request. */
  function ActionName(a: Action): string
  {
    match a
    case Approve => "approve"
    case Reject => "reject"
  }

  /** The action buttons a row shows: approve and reject for a pending row, none otherwise. */
  function OfferedActions(status: string): (actions: seq<Action>)
    ensures actions != [] <==> status == "pending"
    ensures actions != [] ==> actions == [Approve, Reject]
  {
    if status == "pending" then [Approve, Reject] else []
  }
}

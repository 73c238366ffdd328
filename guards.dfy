/**
 * The checks every coach-only action repeats before it writes: the caller is signed in,
 * the caller's own `users` row can be read, and that row has the coach role; for actions
 * on a client, the target row exists and has the client role. A failed lookup
 * (`error || !data`) is a missing row.
 */
module Guards {
  import opened Wrappers
  import opened Db
  import Schemas

  /** The outcome of a check chain: go on, or stop with the message of the first failed check. */
  datatype Guard = Pass | Fail(error: string) {
    /** Runs `next` only if this check passed. */
    function Then(next: Guard): (g: Guard)
      ensures g.Pass? <==> this.Pass? && next.Pass?
      ensures this.Fail? ==> g == this
      ensures this.Pass? ==> g == next
    {
      if Fail? then this else next
    }
  }

  /** What every server action returns: success, possibly with data, or a message for the form. */
  datatype ActionResult<T> = Success(data: T) | Failure(error: string)

  /** The identifier check that opens an action: the 8-4-4-4-12 shape, or the action's message. */
  function IdCheck(id: string, invalid: string): (g: Guard)
    ensures g.Pass? <==> Schemas.IsUuid(id)
    ensures g.Fail? ==> g.error == invalid
  {
    if Schemas.IsUuid(id) then Pass else Fail(invalid)
  }

  const NotAuthenticated := "Not authenticated"
  const PermissionCheckFailed := "Failed to verify permissions"
  const ClientNotFound := "Client not found"

  predicate CallerIsCoach(users: map<Id, UserRow>, caller: Option<Id>) {
    caller.Some? && caller.value in users && users[caller.value].role == Coach
  }

  predicate IsClient(users: map<Id, UserRow>, id: Id) {
    id in users && users[id].role == Client
  }

  /** Authentication, then the role lookup, then the coach role; `notCoach` is the action's own message. */
  function CoachCheck(users: map<Id, UserRow>, caller: Option<Id>, notCoach: string): (g: Guard)
    ensures g.Pass? <==> CallerIsCoach(users, caller)
    ensures caller.None? ==> g == Fail(NotAuthenticated)
    ensures g.Fail? ==> g.error in {NotAuthenticated, PermissionCheckFailed, notCoach}
  {
    if caller.None? then Fail(NotAuthenticated)
    else if caller.value !in users then Fail(PermissionCheckFailed)
    else if users[caller.value].role != Coach then Fail(notCoach)
    else Pass
  }

  /** The target lookup, then the client role; `notClient` is the action's own message. */
  function ClientCheck(users: map<Id, UserRow>, target: Id, notClient: string): (g: Guard)
    ensures g.Pass? <==> IsClient(users, target)
    ensures g.Fail? ==> g.error in {ClientNotFound, notClient}
  {
    if target !in users then Fail(ClientNotFound)
    else if users[target].role != Client then Fail(notClient)
    else Pass
  }

  /** A signed-in caller whose role is client is refused with the action's own message. */
  lemma ClientCallerIsForbidden(users: map<Id, UserRow>, caller: Id, notCoach: string)
    requires caller in users && users[caller].role == Client
    ensures CoachCheck(users, Some(caller), notCoach) == Fail(notCoach)
  {
  }
}

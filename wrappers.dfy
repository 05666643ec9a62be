/** Optional values: JavaScript's `null` / `undefined` results and `T | null` return types. */
module Wrappers {
  datatype Option<+T> = None | Some(value: T) {
    /** The value, or `default` when there is none (JavaScript's `x || default` on objects). */
    function GetOr(default: T): T {
      match this
      case Some(v) => v
      case None => default
    }
  }
}

/** What the form handlers share: their outcome, and the signed-in user's id. */
module Session {
  import opened Wrappers

  /** The outcome of a guarded handler: the record it produced, or why it stopped. */
  datatype Result<T, E> = Ok(value: T) | Err(error: E)

  /** `user?.id` is truthy: present and not empty. */
  predicate SignedIn(userId: Option<string>) {
    userId.Some? && userId.value != ""
  }

  /** `user?.id || "guest"` */
  function UserIdOrGuest(userId: Option<string>): (a: string)
    ensures a != ""
    ensures SignedIn(userId) <==> a == userId.GetOr("")
  {
    if SignedIn(userId) then userId.value else "guest"
  }
}

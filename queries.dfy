/** Identity resolution and the authorization gate
    (src/lib/auth/remotes/queries.logic.ts). The request event is an explicit
    value; the session-attachment step that fills `locals.user` is outside this
    core. */
module AuthQueries {
  import opened Wrappers

  /** The resolved principal; timestamps are opaque instants. */
  datatype User = User(
    id: string, createdAt: int, updatedAt: int, email: string,
    emailVerified: bool, name: string, image: Option<string>)

  /** The request-scoped values; `user` is absent for anonymous requests. */
  datatype Locals = Locals(user: Option<User>)

  /** The part of a request event this core reads. */
  datatype RequestEvent = RequestEvent(locals: Locals)

  /** What the injected `getUser()` can yield: a user, `undefined` or `null`. */
  datatype Resolved = Present(user: User) | Undefined | Null

  /** The body of an HTTP error. */
  datatype ErrorBody = ErrorBody(message: string)

  /** SvelteKit's `error(status, message)`. */
  datatype HttpError = HttpError(status: int, body: ErrorBody)

  /** `error(401, 'Unauthorized')`. */
  const Unauthorized := HttpError(401, ErrorBody("Unauthorized"))

  /** `getUserLogic`: the user attached to the request, as it is; never fails. */
  function GetUser(event: RequestEvent): (r: Option<User>)
    ensures r.Some? <==> event.locals.user.Some?
    ensures r.Some? ==> r.value == event.locals.user.value
  {
    event.locals.user
  }

  /** `validateUserLogic`: the user `getUser()` yields, or the 401 error when
      it yields `undefined` or `null` (both falsy). */
  function ValidateUser(resolved: Resolved): (r: Result<User, HttpError>)
    ensures r.Success? <==> resolved.Present?
    ensures resolved.Present? ==> r == Success(resolved.user)
    ensures !resolved.Present? ==> r == Failure(HttpError(401, ErrorBody("Unauthorized")))
  {
    if resolved.Present? then Success(resolved.user) else Failure(Unauthorized)
  }

  /** The value the `getUser` query hands back for what `getUserLogic` returned. */
  function AsResolved(user: Option<User>): Resolved {
    if user.Some? then Present(user.value) else Undefined
  }

  /** The gate as it is wired: `validateUserLogic` over the `getUser` query,
      which runs `getUserLogic` on the current request. */
  function RequireUser(event: RequestEvent): (r: Result<User, HttpError>)
    ensures r.Success? <==> event.locals.user.Some?
    ensures event.locals.user.Some? ==> r == Success(event.locals.user.value)
    ensures event.locals.user.None? ==> r == Failure(Unauthorized)
  {
    ValidateUser(AsResolved(GetUser(event)))
  }

  /** The gate's outcome depends only on whether a user was resolved, and
      which one: `undefined` and `null` are refused alike. */
  lemma ValidateUserDependsOnPresence(a: Resolved, b: Resolved)
    requires a.Present? == b.Present?
    requires a.Present? ==> a.user == b.user
    ensures ValidateUser(a) == ValidateUser(b)
  {
  }

  /** An anonymous request reads back as absent, and the gate refuses it with
      status 401 and the message "Unauthorized". */
  lemma AnonymousRequestRefused(event: RequestEvent)
    requires event.locals.user.None?
    ensures GetUser(event) == None
    ensures RequireUser(event).Failure?
    ensures RequireUser(event).error.status == 401 && RequireUser(event).error.body.message == "Unauthorized"
  {
  }
}

/** Values shared by the whole client: optional values, the settled result of a
    request, and the game entry as the API and the forms exchange it. */
module Common {

  datatype Option<+T> = None | Some(value: T)

  /** How one request to the games API settled, as a handler sees it: a 2xx
      response with its decoded body, or a failure that carries the HTTP status
      when a response arrived and `None` when the request never got one. A
      failure's status is never a 2xx status: those responses are `Success`,
      except a 2xx reply whose body is not JSON, which ends in the `catch` and
      is written `Failure(None)`. */
  datatype Outcome<+T> = Success(value: T) | Failure(status: Option<nat>)

  /** Server-assigned identifier of a game entry. */
  type Id = nat

  /** A game entry. `id` is `None` until the server has assigned one (a
      payload built by the add form has no id). Platform and status are the
      strings the selects and the server use, so unknown values are possible. */
  datatype Game = Game(
    id: Option<Id>,
    title: string,
    platform: string,
    status: string,
    hoursPlayed: int,
    favorite: bool)

  /** `Number(h) || 0` on a number input: `None` stands for NaN, which is
      falsy and so replaced by 0; every other number is kept. */
  function HoursOrZero(h: Option<int>): int
  {
    if h.Some? then h.value else 0
  }
}

/** What the login and signup pages exchange with the auth endpoints. */
module AuthApi {
  import opened Common

  /** The JSON body of an auth response: its `error` and `token` fields. */
  datatype AuthBody = AuthBody(error: Option<string>, token: Option<string>)

  /** An auth response whose body was read as JSON, or `NoReply` when the
      request failed or the body was not JSON (both end in the `catch`). */
  datatype AuthReply = Answered(status: nat, body: AuthBody) | NoReply

  /** What a submit does outside its own state, in order. */
  datatype AuthEffect =
    | RegisterRequest(email: string, password: string, name: string)   // POST /api/auth/register
    | LoginRequest(email: string, password: string)                    // POST /api/auth/login
    | StoreToken(token: Option<string>)                                // login(json.token)

  /** `res.ok` */
  predicate IsOk(status: nat)
  {
    200 <= status <= 299
  }

  /** A reply that was read and whose status is 2xx. */
  predicate Succeeded(reply: AuthReply)
  {
    reply.Answered? && IsOk(reply.status)
  }

  /** `json?.error || fallback`: the server's message when it sent a
      non-empty one, the fallback otherwise. */
  function ServerErrorOr(body: AuthBody, fallback: string): (m: string)
    ensures body.error.Some? && body.error.value != "" ==> m == body.error.value
    ensures body.error.None? || body.error.value == "" ==> m == fallback
  {
    if body.error.Some? && body.error.value != "" then body.error.value else fallback
  }

  function Digit(d: nat): (c: char)
    requires d < 10
    ensures '0' <= c <= '9' && c as int - '0' as int == d
  {
    "0123456789"[d]
  }

  predicate AllDigits(s: string)
  {
    forall i :: 0 <= i < |s| ==> '0' <= s[i] <= '9'
  }

  /** The number a string of decimal digits denotes, read most significant
      digit first. */
  function DigitsValue(s: string): nat
    requires AllDigits(s)
  {
    if s == [] then 0
    else DigitsValue(s[..|s| - 1]) * 10 + (s[|s| - 1] as int - '0' as int)
  }

  /** The decimal digits JavaScript prints for a status code in a template
      string: they read back as `n`, with no leading zero. */
  function Decimal(n: nat): (s: string)
    ensures s != [] && AllDigits(s)
    ensures DigitsValue(s) == n
    ensures |s| == 1 || s[0] != '0'
  {
    if n < 10 then [Digit(n)]
    else
      var s := Decimal(n / 10) + [Digit(n % 10)];
      assert s[..|s| - 1] == Decimal(n / 10);
      s
  }
}

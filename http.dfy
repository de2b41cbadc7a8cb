/**
 * What the frontends see of one `fetch`: the network call either fails
 * (the promise rejects with an error) or settles to a response with an
 * `ok` status whose body `response.json()` either parses or rejects.
 * The payload is the part of the parsed body the caller reads.
 */
module Http {

  /** The outcome of `response.json()`: the payload read from the body, or the message of the error it raised. */
  datatype Json<T> = Parsed(value: T) | Unparseable(message: string)

  /** The outcome of `fetch(...)`. */
  datatype Reply<T> = Response(ok: bool, json: Json<T>) | NetworkFailure(message: string)

  /** The address every frontend call goes to. */
  const ServerUrl: string := "http://localhost:5000"

  /** An ok response whose body parsed: the only outcome on which the handlers do not throw. */
  predicate Succeeded<T>(reply: Reply<T>) {
    reply.Response? && reply.ok && reply.json.Parsed?
  }
}

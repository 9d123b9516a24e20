/**
 * Values shared by every page of the expert directory client: the expert
 * record as the client reads it from the server, and the abstract shape of a
 * server reply.
 */
module Common {

  datatype Option<+T> = None | Some(value: T)

  /**
   * The outcome of one request whose body is decoded as JSON.
   * Failed: the request or the JSON decoding threw.
   * Malformed: the body decoded, but the field the page reads is missing or
   * is not an array.
   * Parsed: the field the page reads, decoded.
   */
  datatype Payload<+T> = Failed | Malformed | Parsed(value: T)

  /**
   * An id field as JavaScript reads it from a decoded record: `undefined`
   * when the field is absent, `null` when the JSON holds null, otherwise a
   * string. JavaScript keeps `undefined` and `null` apart under `===` and in
   * a `Set`, and so does this type.
   */
  datatype Id = Undefined | Null | Str(value: string)

  /**
   * An expert record. `uid` is the server's `_id` field and `altId` its `id`
   * field. A missing domain, name or location is the empty string.
   */
  datatype Expert = Expert(
    uid: Id,
    altId: Id,
    name: string,
    domain: string,
    location: string)

  /**
   * The identity the home page uses: `_id ?? id`, which falls back to `id`
   * when `_id` is `undefined` or `null`.
   */
  function Key(e: Expert): Id
  {
    if e.uid.Str? then e.uid else e.altId
  }
}

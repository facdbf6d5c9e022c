/**
 * The abstract network replies the screens branch on. A `fetch` either
 * rejects or yields a status flag and a body; reading the body as JSON may
 * throw. Only the body fields the screens read are kept, by truthiness:
 * `success` is the truthiness of `json.success`, `message` is "" when the
 * field is absent or falsy, and `data` is the array in `json.data` or None
 * when that field is not an array.
 */
module Http {
  import opened Common

  /** One element of a JSON array: null, a primitive, or an object with its key set. */
  datatype Element = NullElement | Primitive | Object(keys: set<string>)

  datatype Body = NullBody | ObjectBody(success: bool, message: string, data: Option<seq<Element>>)

  /** The outcome of `response.json()`. */
  datatype Reply = Unparsable | Parsed(body: Body)

  /** The outcome of `fetch` followed by `response.json()`. */
  datatype Fetched = FetchRejected | Received(ok: bool, reply: Reply)
}

/** What one HTTP request gives back, once the transport is abstracted. */
module Http {

  /** The answer to one request: a status code and the parsed body, or the
      transport exception (`requests.RequestException`) raised instead. */
  datatype Reply<B> = Reply(status: int, body: B) | NetworkFailure
}

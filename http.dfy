/** What the SDK reads from an HTTP response. */
module Http {

  /** A response counts as successful when its status code is in the 2xx range. */
  predicate IsSuccessful(code: int) {
    200 <= code < 300
  }
}

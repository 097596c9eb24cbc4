/** The HTTP statuses that the hubs answer with themselves (section 15 of RFC 9110). */
module Statuses {
  const REDIRECT := 301
  const BAD_REQUEST := 400
  const UNAUTHORIZED := 401
  const NOT_FOUND := 404
  const INTERNAL_ERROR := 500
  const BAD_GATEWAY := 502
}

/** The fixed client-facing messages of the handler's five failure paths. */
module ResponseErrors {
  const OnlyPostAllowed := "Only POST requests are allowed"
  const TokenInvalid := "Invalid token"
  const InvalidRequestBody := "Invalid request body"
  const RequestTimeOut := "Request timed out"
  const InternalError := "Internal server error"
}

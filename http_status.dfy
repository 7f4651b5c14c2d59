/** The HTTP status codes the drivers compare against (`httplib`'s names). */
module HttpStatus {
  const OK: int := 200
  const CREATED: int := 201
  const ACCEPTED: int := 202
  const NO_CONTENT: int := 204
  const NOT_FOUND: int := 404
  const CONFLICT: int := 409
}

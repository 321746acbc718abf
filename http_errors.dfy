/** The `HTTPException`s the backend raises, reduced to status and detail. */
module Http {
  datatype HttpError = HttpError(status: int, detail: string)

  const BadRequest: int := 400
  const Unauthorized: int := 401
  const Forbidden: int := 403
  const NotFound: int := 404
  /** FastAPI's answer to a query parameter that fails its declared bound. */
  const UnprocessableEntity: int := 422
  const InternalError: int := 500
}

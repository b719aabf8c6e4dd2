/** How an endpoint ends when it does not return normally. */
module Http {
  /** An `HTTPException(status_code, detail)` raised by the handler, or any
      other exception, which the framework answers with status 500. */
  datatype HttpError =
    | HttpException(statusCode: int, detail: string)
    | Unhandled(exception: string)
  {
    function Status(): int {
      match this
      case HttpException(code, _) => code
      case Unhandled(_) => 500
    }
  }

  /** The exception `scalar_one_or_none` raises when several rows match. */
  const MultipleResultsFound: HttpError := Unhandled("MultipleResultsFound")
}

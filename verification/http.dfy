/** What a route hands back: a status with a body, or an error status with its `detail`. */
module Http {
  datatype Response<+T> = Success(status: int, body: T) | HttpError(status: int, detail: string)
}

/** The JSON answers the API routes build with `NextResponse.json`. */
module Http {

  /**
   * The three body shapes the routes share: `{ error }`, `{ message }` and
   * `{ success: true, message }`.
   */
  datatype Body = ErrorBody(error: string) | MessageBody(message: string) | SuccessBody(message: string)

  /** An HTTP status with its body; `NextResponse.json` defaults to 200. */
  datatype Reply = Reply(status: int, body: Body)
}

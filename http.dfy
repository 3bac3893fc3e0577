/** An HTTP reply as the route handlers build it: a status code and a JSON body. */
module Http {

  datatype Reply<B> = Reply(status: nat, body: B)

  /** The error bodies every route shares. */
  datatype Failure =
    | ErrorBody(error: string)
    | ValidationErrors(fields: seq<string>)
}

/** What a route handler hands back to the web framework. */
module Http {
  import opened JsonValues

  /** A status and a JSON body, or the framework's 500 page when the handler
      raised an exception it did not catch. */
  datatype Reply = Reply(status: int, body: Json) | InternalError

  function Ok200(body: Json): Reply {
    Reply(200, body)
  }
}

/** What a route handler sends back. */
module Http {
  import opened JsValues

  /** An HTTP reply: status code and JSON body (`res.status(s).json(body)`; the status
      is 200 when the handler does not set one). */
  datatype Reply = Reply(status: nat, body: Record)
}

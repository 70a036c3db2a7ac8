/**
 * The HTTP shapes both serverless handlers answer with. A response is the status code,
 * the headers the handler sets itself with `setHeader`, and the JSON envelope it sends.
 */
module Http {

  type Headers = seq<(string, string)>

  /** The body a handler sends: nothing (`end()`), or one of its JSON envelopes. */
  datatype Body =
    | NoBody                                        // res.status(..).end()
    | Succeeded                                     // { success: true }
    | Failed(message: string)                       // { success: false, message }
    | ConfigFile(config: string, configName: string) // { success: true, config, configName }

  datatype Response = Response(status: nat, headers: Headers, body: Body)
}

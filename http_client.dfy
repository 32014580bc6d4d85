/**
 * The HTTP client the payment workflow posts through. The network is outside the model: the
 * reply is handed in by the caller, and the client keeps the list of requests it has posted.
 */
module HttpClients {
  import opened Wrappers
  import opened Models

  /** `HttpStatusCode.OK`. */
  const OkStatus := 200

  /** A posted request: the target URI and the object serialised as its JSON body. */
  datatype Request = Request(uri: Option<string>, body: UserModel)

  /** The status of a reply and the text of its content. */
  datatype Response = Response(statusCode: int, content: string)

  class HttpClientWrapper {
    var requests: seq<Request>

    constructor()
      ensures requests == []
    {
      requests := [];
    }

    /** PostAsync: the request is sent and `reply` is what comes back. */
    method PostAsync(uri: Option<string>, body: UserModel, reply: Response) returns (response: Response)
      modifies this
      ensures requests == old(requests) + [Request(uri, body)]
      ensures response == reply
    {
      requests := requests + [Request(uri, body)];
      response := reply;
    }
  }
}

/**
 * The remote side of the system, abstracted: the token endpoint and the
 * Microsoft Graph drive endpoints are reached through HTTP requests whose
 * replies are inputs to the model. A reply body is represented by the keys
 * the client code looks at, not by its JSON text.
 */
module Remote {
  import opened Outcomes

  /** One entry of a folder listing's "value" array, by the keys the listing reads. */
  datatype Child = Child(
    name: Option<string>,                  // child["name"]
    size: Option<int>,                     // child["size"], a byte count
    lastModifiedDateTime: Option<string>)  // child["lastModifiedDateTime"], an ISO-8601 timestamp

  /** A reply body that decoded as a JSON object, by the keys the client looks at. */
  datatype Body = Body(
    hasError: bool,                 // "error" in body
    hasFolder: bool,                // "folder" in body
    children: Option<seq<Child>>,   // body["value"]
    downloadUrl: Option<string>,    // body["@microsoft.graph.downloadUrl"]
    accessToken: Option<string>)    // body["access_token"]

  /**
   * What sending a request yields: a status code and a body (None when the
   * body is not JSON), or NoReply when the HTTP library itself raised.
   */
  datatype Reply = Reply(status: int, body: Option<Body>) | NoReply

  /** The two kinds of request the client sends. */
  datatype Request =
    | Get(url: string, bearer: string)                    // GET with "Authorization: Bearer <bearer>"
    | TokenPost(url: string, form: map<string, string>)   // form-encoded POST to the token endpoint

  datatype Exchange = Exchange(request: Request, reply: Reply)

  /** The reply the provider gives next; once the script is used up, requests fail. */
  function Next(script: seq<Reply>): Reply
  {
    if script == [] then NoReply else script[0]
  }

  function Rest(script: seq<Reply>): seq<Reply>
  {
    if script == [] then [] else script[1..]
  }

  /**
   * The network as an oracle: it answers successive requests with the
   * replies of its script, in order, and keeps a log of every exchange.
   */
  class Network {
    var script: seq<Reply>
    var log: seq<Exchange>

    constructor (script: seq<Reply>)
      ensures this.script == script && log == []
    {
      this.script := script;
      log := [];
    }

    method Send(request: Request) returns (reply: Reply)
      modifies this
      ensures reply == Next(old(script)) && script == Rest(old(script))
      ensures log == old(log) + [Exchange(request, reply)]
    {
      reply := Next(script);
      script := Rest(script);
      log := log + [Exchange(request, reply)];
    }
  }
}

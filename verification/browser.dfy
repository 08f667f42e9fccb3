/** The browser facilities the client uses, as plain state: `localStorage`, the
    last address assigned to `window.location.href`, the clock `Date.now()`, and
    `fetch`. The network is a script: the answers the server will give to the next
    requests, in order; every request handed to `fetch` is recorded. */
module Browser {
  import opened Wrappers
  import opened Js

  /** What `response.json()` yields: a parsed value, or the message of the
      SyntaxError it rejects with when the body is not JSON (an empty 204 body among them). */
  datatype Payload = Parsed(json: Json) | Unparsable(syntaxError: string)

  datatype Response = Response(status: int, payload: Payload)

  /** A file picked by the user; only its identity matters here. */
  datatype File = File(name: string)

  /** A request body: none, a string, a multipart FormData, or a JavaScript value handed
      to `request` as it is (only an object or an array among them gets serialised). */
  datatype Body = NoBody | Text(text: string) | Form(parts: seq<(string, File)>) | Object(json: Json)

  datatype HttpRequest = HttpRequest(url: string, verb: string, headers: map<string, string>, body: Body)

  /** The message of the TypeError `fetch` rejects with when no response arrives. */
  const FAILED_TO_FETCH := "Failed to fetch"

  /** `response.ok` */
  predicate IsOk(status: int) {
    200 <= status <= 299
  }

  /** The answer to the next request: `None` when the network fails (or the script has run out). */
  function NextReply(replies: seq<Option<Response>>): Option<Response> {
    if replies == [] then None else replies[0]
  }

  function LaterReplies(replies: seq<Option<Response>>): seq<Option<Response>> {
    if replies == [] then [] else replies[1..]
  }

  /** The window: its localStorage, the address last assigned to `location.href`, the clock and the network. */
  class Window {
    var storage: map<string, string>
    var location: Option<string>
    var now: int
    var sent: seq<HttpRequest>
    var replies: seq<Option<Response>>

    constructor(storage: map<string, string>, now: int, replies: seq<Option<Response>>)
      ensures this.storage == storage && this.now == now && this.replies == replies
      ensures location == None && sent == []
    {
      this.storage := storage;
      this.now := now;
      this.replies := replies;
      location := None;
      sent := [];
    }

    /** `fetch(req.url, req)`: exactly one request goes out. */
    method Fetch(req: HttpRequest) returns (reply: Option<Response>)
      modifies this
      ensures sent == old(sent) + [req]
      ensures reply == NextReply(old(replies)) && replies == LaterReplies(old(replies))
      ensures storage == old(storage) && location == old(location) && now == old(now)
    {
      sent := sent + [req];
      reply := NextReply(replies);
      replies := LaterReplies(replies);
    }

    /** `localStorage.setItem(key, value)` */
    method SetItem(key: string, value: string)
      modifies this
      ensures storage == old(storage)[key := value]
      ensures location == old(location) && now == old(now) && sent == old(sent) && replies == old(replies)
    {
      storage := storage[key := value];
    }

    /** `localStorage.removeItem(key)` */
    method RemoveItem(key: string)
      modifies this
      ensures storage == old(storage) - {key}
      ensures location == old(location) && now == old(now) && sent == old(sent) && replies == old(replies)
    {
      storage := storage - {key};
    }

    /** `window.location.href = href` */
    method Navigate(href: string)
      modifies this
      ensures location == Some(href)
      ensures storage == old(storage) && now == old(now) && sent == old(sent) && replies == old(replies)
    {
      location := Some(href);
    }

    /** Time passes between two operations. */
    method Advance(ms: nat)
      modifies this
      ensures now == old(now) + ms
      ensures storage == old(storage) && location == old(location) && sent == old(sent) && replies == old(replies)
    {
      now := now + ms;
    }
  }
}

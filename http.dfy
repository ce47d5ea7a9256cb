/** The parts of a Koa request context the stages read and write. */
module Http {
  import opened Disk

  /** What the stages read of the incoming request: the method (`ctx.method`), the URL path
      without its query string (`ctx.path`), the query string and the body
      that the body-parsing middleware captured. */
  datatype Request = Request(httpMethod: string, path: string, querystring: string, body: seq<byte>)

  /** A response header value as `ctx.set` receives it: text, a number
      (`stats.size`) or a modification time (`stats.mtime`, rendered by
      `toUTCString`). */
  datatype Value = Text(text: string) | Number(n: int) | Date(time: int)

  type Headers = map<string, Value>

  /** `ctx.response.get(name)` is truthy: the header is present and not the
      empty string. */
  predicate HasHeader(h: Headers, name: string) {
    name in h && h[name] != Text("")
  }

  /** What `ctx.body` holds: nothing, a text message, a read stream over a
      file, or bytes that arrived from upstream. */
  datatype Body = NoBody | Message(text: string) | FileStream(path: string) | Bytes(data: seq<byte>)

  /** The response side of the context as a value: status, whether it was
      set explicitly, headers, content type and body. */
  datatype ResponseState = ResponseState(status: int, explicitStatus: bool, headers: Headers, contentType: string, body: Body)

  /** The response side of Koa's `ctx`: the status (404 until something sets
      it), whether it was set explicitly, the headers, the content type
      (`ctx.type`, "" when none) and the body. */
  class Context {
    const request: Request
    var status: int
    var explicitStatus: bool
    var headers: Headers
    var contentType: string
    var body: Body

    constructor (request: Request)
      ensures this.request == request
      ensures status == 404 && !explicitStatus
      ensures headers == map[] && contentType == "" && body == NoBody
    {
      this.request := request;
      status := 404;
      explicitStatus := false;
      headers := map[];
      contentType := "";
      body := NoBody;
    }

    /** The response the context holds now. */
    function State(): ResponseState
      reads this
    {
      ResponseState(status, explicitStatus, headers, contentType, body)
    }

    /** `ctx.set(name, value)`. */
    method Set(name: string, value: Value)
      modifies this`headers
      ensures headers == old(headers)[name := value]
    {
      headers := headers[name := value];
    }

    /** `ctx.status = code`. */
    method SetStatus(code: int)
      modifies this`status, this`explicitStatus
      ensures status == code && explicitStatus
    {
      status := code;
      explicitStatus := true;
    }

    /** `ctx.type = t`. */
    method SetType(t: string)
      modifies this`contentType
      ensures contentType == t
    {
      contentType := t;
    }

    /** `ctx.body = b`: a body makes the status 200 unless the status was set
        explicitly before; either way the status counts as set from then on,
        since the setter goes through `ctx.status`. */
    method SetBody(b: Body)
      modifies this`body, this`status, this`explicitStatus
      ensures body == b
      ensures status == if old(explicitStatus) then old(status) else 200
      ensures explicitStatus
    {
      body := b;
      if !explicitStatus {
        status := 200;
        explicitStatus := true;
      }
    }
  }
}

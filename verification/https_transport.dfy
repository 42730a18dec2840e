/**
  The HTTPS leg of a forwarded query: one POST of the wire-format query to
  the fixed DoH endpoint. The HTTP client is an oracle from request to
  outcome; what the model keeps is the rule that turns that outcome into
  response bytes or an error.
 */
module HttpsTransport {
  import opened Wrappers
  import opened DnsMsg

  const DohUrl: string := "https://cloudflare-dns.com/dns-query"
  const DohContentType: string := "application/dns-udpwireformat"

  datatype PostRequest = PostRequest(url: string, contentType: string, body: Bytes)

  /** Reading the response body either yields its bytes or fails. */
  datatype BodyRead = Body(bytes: Bytes) | ReadError

  /** What the HTTP client reports for one POST. */
  datatype PostOutcome =
    | ClientError                              // connection, TLS or protocol failure
    | Response(status: int, body: BodyRead)    // a response arrived

  datatype TransportFailure = PostFailed | HttpStatus(status: int) | BodyReadFailed

  /** The one POST the forwarder issues for `wire`. */
  function DohPost(wire: Bytes): PostRequest {
    PostRequest(DohUrl, DohContentType, wire)
  }

  /**
    `makeHttpsRequest(wire)`: the body of the response comes back only when
    the POST got through, the status is 200 and the body could be read. The
    status is checked before the body is read, so a non-200 status is the
    error even when reading would also have failed.
   */
  function MakeHttpsRequest(post: PostRequest -> PostOutcome, wire: Bytes): (r: Result<Bytes, TransportFailure>)
    ensures var o := post(DohPost(wire));
              r.Ok? <==> o.Response? && o.status == 200 && o.body.Body?
    ensures var o := post(DohPost(wire));
              r.Ok? ==> r.value == o.body.bytes
    ensures var o := post(DohPost(wire));
              o.ClientError? ==> r == Err(PostFailed)
    ensures var o := post(DohPost(wire));
              o.Response? && o.status != 200 ==> r == Err(HttpStatus(o.status))
    ensures var o := post(DohPost(wire));
              o.Response? && o.status == 200 && o.body.ReadError? ==> r == Err(BodyReadFailed)
  {
    match post(DohPost(wire))
    case ClientError => Err(PostFailed)
    case Response(status, body) =>
      if status != 200 then Err(HttpStatus(status))
      else match body
        case Body(bytes) => Ok(bytes)
        case ReadError => Err(BodyReadFailed)
  }

  /** The transport as the query pipeline sees it: wire bytes in, bytes or an error out. */
  function DohTransport(post: PostRequest -> PostOutcome): Bytes -> Result<Bytes, TransportFailure> {
    wire => MakeHttpsRequest(post, wire)
  }
}

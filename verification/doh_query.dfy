/**
  `QueryOverHTTPS`: pack the query to wire format, POST it, unpack the
  answer. The codec and the transport are oracles; the first stage that
  fails decides the error, and later stages are not run.
 */
module DohQuery {
  import opened Wrappers
  import opened DnsMsg
  import HttpsTransport

  /** The three per-query errors, one per stage. */
  datatype QueryError = PackErr | TransportErr | UnpackErr

  /** The outcome of one run and how many stages were invoked (1 to 3). */
  datatype QueryRun = QueryRun(result: Result<Msg, QueryError>, stages: nat)

  type Packer = Msg -> Option<Bytes>
  type Transport = Bytes -> Result<Bytes, HttpsTransport.TransportFailure>
  type Unpacker = Bytes -> Option<Msg>

  function QueryOverHttps(q: Msg, pack: Packer, transport: Transport, unpack: Unpacker): (run: QueryRun)
    ensures 1 <= run.stages <= 3
    ensures run.result.Ok? <==>
              pack(q).Some? && transport(pack(q).value).Ok? && unpack(transport(pack(q).value).value).Some?
    ensures run.result.Ok? ==> run.stages == 3 && run.result.value == unpack(transport(pack(q).value).value).value
    // a pack failure is reported as such and the transport is never invoked
    ensures pack(q).None? <==> run.result == Err(PackErr)
    ensures pack(q).None? ==> run.stages == 1
    // a transport failure is reported as such and unpack is never attempted
    ensures run.result == Err(TransportErr) <==> pack(q).Some? && transport(pack(q).value).Err?
    ensures run.result == Err(TransportErr) ==> run.stages == 2
    ensures run.result == Err(UnpackErr) <==>
              pack(q).Some? && transport(pack(q).value).Ok? && unpack(transport(pack(q).value).value).None?
    ensures run.result == Err(UnpackErr) ==> run.stages == 3
  {
    match pack(q)
    case None => QueryRun(Err(PackErr), 1)
    case Some(wire) =>
      match transport(wire)
      case Err(_) => QueryRun(Err(TransportErr), 2)
      case Ok(resp) =>
        match unpack(resp)
        case None => QueryRun(Err(UnpackErr), 3)
        case Some(m) => QueryRun(Ok(m), 3)
  }

  /** Once packing fails, neither the transport nor the unpacker can change the run. */
  lemma PackFailureStopsPipeline(q: Msg, pack: Packer, t1: Transport, t2: Transport, u1: Unpacker, u2: Unpacker)
    requires pack(q).None?
    ensures QueryOverHttps(q, pack, t1, u1) == QueryOverHttps(q, pack, t2, u2)
  {
  }

  /** Once the transport fails, the unpacker cannot change the run. */
  lemma TransportFailureStopsPipeline(q: Msg, pack: Packer, transport: Transport, u1: Unpacker, u2: Unpacker)
    requires pack(q).Some? && transport(pack(q).value).Err?
    ensures QueryOverHttps(q, pack, transport, u1) == QueryOverHttps(q, pack, transport, u2)
  {
  }

  /** The upstream as the handler sees it: the pipeline over the real HTTPS transport. */
  function DohUpstream(pack: Packer, post: HttpsTransport.PostRequest -> HttpsTransport.PostOutcome,
                       unpack: Unpacker): (upstream: Msg -> Result<Msg, QueryError>)
    ensures forall q :: upstream(q).Ok? <==>
              && pack(q).Some?
              && post(HttpsTransport.DohPost(pack(q).value)).Response?
              && post(HttpsTransport.DohPost(pack(q).value)).status == 200
              && post(HttpsTransport.DohPost(pack(q).value)).body.Body?
              && unpack(post(HttpsTransport.DohPost(pack(q).value)).body.bytes).Some?
    ensures forall q :: upstream(q) == Err(TransportErr) <==>
              pack(q).Some? && HttpsTransport.MakeHttpsRequest(post, pack(q).value).Err?
  {
    q => QueryOverHttps(q, pack, HttpsTransport.DohTransport(post), unpack).result
  }

  /** An HTTP status other than 200 for the packed query makes the upstream report a transport error. */
  lemma HttpErrorIsTransportError(q: Msg, pack: Packer, post: HttpsTransport.PostRequest -> HttpsTransport.PostOutcome,
                                  unpack: Unpacker)
    requires pack(q).Some?
    requires post(HttpsTransport.DohPost(pack(q).value)).Response?
    requires post(HttpsTransport.DohPost(pack(q).value)).status != 200
    ensures DohUpstream(pack, post, unpack)(q) == Err(TransportErr)
  {
  }
}

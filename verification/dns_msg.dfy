/**
  DNS messages as the forwarder sees them, and the two message-building
  helpers of the DNS library that the handler relies on: `SetReply`, which
  turns a message into the reply to a request, and `HandleFailed`, which
  builds the SERVFAIL reply. The wire codec itself is an oracle elsewhere.
 */
module DnsMsg {

  type uint8 = x: int | 0 <= x < 0x100
  type uint16 = x: int | 0 <= x < 0x1_0000
  type Bytes = seq<uint8>

  /** Record type A (IPv4 address). */
  const TypeA: uint16 := 1
  const ClassINET: uint16 := 1

  const RcodeSuccess: uint16 := 0
  const RcodeServerFailure: uint16 := 2

  /** The DoH provider's own host name, in fully qualified form. */
  const DohHost: string := "cloudflare-dns.com."

  datatype Question = Question(name: string, qtype: uint16, qclass: uint16)

  /** A resource record of the answer section. */
  datatype Rr = Rr(name: string, rrtype: uint16, ttl: nat, rdata: Bytes)

  /**
    The part of a DNS message the forwarder reads or rewrites: the
    transaction id, the QR (response) flag, the response code, the
    question section and the answer section.
   */
  datatype Msg = Msg(id: uint16, response: bool, rcode: uint16,
                     questions: seq<Question>, answers: seq<Rr>)

  /** A freshly allocated message (`new(dns.Msg)`). */
  const EmptyMsg: Msg := Msg(0, false, RcodeSuccess, [], [])

  /** The query's first question asks for an A record. */
  predicate IsTypeA(q: Msg) {
    |q.questions| > 0 && q.questions[0].qtype == TypeA
  }

  /**
    `m.SetReply(request)`: the reply carries the request's transaction id and
    first question, the QR flag and a success code, and keeps `m`'s answers.
    A request without questions leaves `m`'s question section as it was.
   */
  function SetReply(m: Msg, request: Msg): (r: Msg)
    ensures r.id == request.id && r.response && r.rcode == RcodeSuccess
    ensures r.answers == m.answers
    ensures |request.questions| > 0 ==> r.questions == [request.questions[0]]
    ensures |request.questions| == 0 ==> r.questions == m.questions
  {
    m.(id := request.id, response := true, rcode := RcodeSuccess,
       questions := if |request.questions| > 0 then [request.questions[0]] else m.questions)
  }

  /**
    The reply `dns.HandleFailed(w, request)` writes: a fresh message made the
    reply to `request`, with the SERVFAIL code and no answers.
   */
  function HandleFailed(request: Msg): (r: Msg)
    ensures r.id == request.id && r.response
    ensures r.rcode == RcodeServerFailure && r.answers == []
    ensures |request.questions| > 0 ==> r.questions == [request.questions[0]]
    ensures |request.questions| == 0 ==> r.questions == []
  {
    SetReply(EmptyMsg, request).(rcode := RcodeServerFailure)
  }

  /**
    The Go code rewrites shared messages in place (the bootstrap host message
    and the cached messages). On the fields modelled here, every later reply
    built from such a message through `SetReply` with a request that has a
    question is the same as the reply built from the untouched message, so
    the model may keep those messages unchanged. (The library's RD and CD
    bits, copied only for QUERY requests, are outside the model.)
   */
  lemma SetReplyOverwrites(m: Msg, earlier: Msg, request: Msg)
    requires |request.questions| > 0
    ensures SetReply(SetReply(m, earlier), request) == SetReply(m, request)
  {
  }
}

/**
  `RunDNS`: bootstrap the DoH host address, then build the handler (the
  host message and a fresh one-hour cache) and the UDP server on the given
  port. When every bootstrap lookup fails it returns an error and no
  server is built, so no listener is ever started.
 */
module Service {
  import opened Wrappers
  import opened DnsMsg
  import opened NameCache
  import opened Handler
  import opened Bootstrap
  import Decimal

  const ServiceType: string := "UDP"
  const ServerNet: string := "udp"
  const BootstrapFailure: string :=
    "Failed to obtain Cloudflare's DOH server address. The DNS service could not be started."

  /** The configured `dns.Server`: listen address, network and handler. */
  datatype Server = Server(addr: string, net: string, handler: SecHandler)

  /** `Started` carries the server whose listener is then started; `StartFailed` builds none. */
  datatype StartResult = Started(server: Server) | StartFailed(reason: string)

  /** `":" + strconv.Itoa(port)` */
  function ListenAddr(port: int): string {
    ":" + Decimal.Itoa(port)
  }

  /** The port a listen address of the form `:<port>` names. */
  function AddrPort(addr: string): Option<int> {
    if |addr| > 0 && addr[0] == ':' then Decimal.Atoi(addr[1..]) else None
  }

  method RunDns(port: int, resolve: Resolver) returns (res: StartResult, attempts: nat, sleeps: nat)
    ensures 1 <= attempts <= MaxAttempts && sleeps == attempts - 1
    ensures forall k :: 0 <= k < attempts - 1 ==> resolve(k).Err?
    // a server is built exactly when some lookup within the budget succeeds
    ensures res.Started? <==> CanResolve(resolve)
    ensures res.StartFailed? ==> res.reason == BootstrapFailure && attempts == MaxAttempts && sleeps == MaxRetries
    ensures res.Started? ==>
              && resolve(attempts - 1) == Ok(res.server.handler.host)
              && res.server.handler.nameCache == EmptyCache
              && res.server.handler.serviceType == ServiceType
              && res.server.net == ServerNet
              && AddrPort(res.server.addr) == Some(port)
  {
    var host;
    host, attempts, sleeps := RetryLoop(resolve);
    if host.None? {
      return StartFailed(BootstrapFailure), attempts, sleeps;
    }
    var handler := SecHandler(ServiceType, host.value, EmptyCache);
    Decimal.ItoaRoundTrip(port);
    assert ListenAddr(port)[1..] == Decimal.Itoa(port);
    res := Started(Server(ListenAddr(port), ServerNet, handler));
  }
}

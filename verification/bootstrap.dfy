/**
  Bootstrap of the DoH host address in `RunDNS`: one plain-DNS lookup,
  then up to five retries with a one-second sleep before each, stopping at
  the first success. The outcome of the k-th lookup (counting from 0) is an
  oracle; the sleeps are counted rather than performed.
 */
module Bootstrap {
  import opened Wrappers
  import opened DnsMsg

  const MaxRetries: nat := 5
  const MaxAttempts: nat := MaxRetries + 1

  /** A failed lookup (an unreachable network, a timeout, ...). */
  datatype LookupError = LookupError

  /** `resolve(k)`: what the k-th call of `getDohHostAddr` returns. */
  type Resolver = nat -> Result<Msg, LookupError>

  /** The host message if one was obtained, the lookups made, the sleeps taken. */
  datatype BootRun = BootRun(host: Option<Msg>, attempts: nat, sleeps: nat)

  /** Some lookup within the attempt budget succeeds. */
  predicate CanResolve(resolve: Resolver) {
    exists k :: 0 <= k < MaxAttempts && resolve(k).Ok?
  }

  /**
    The retries from retry number `i` on, given that lookups `0 .. i-1` all
    failed: at most `MaxAttempts` lookups in all, one sleep per retry, and
    the host of the first success from `i` on.
   */
  function RetryFrom(resolve: Resolver, i: nat): (b: BootRun)
    requires 1 <= i <= MaxAttempts
    ensures i <= b.attempts <= MaxAttempts
    ensures b.sleeps == b.attempts - 1
    ensures forall k :: i <= k < b.attempts - 1 ==> resolve(k).Err?
    ensures b.host.Some? ==> i < b.attempts && resolve(b.attempts - 1) == Ok(b.host.value)
    ensures b.host.None? ==> b.attempts == MaxAttempts && forall k :: i <= k < MaxAttempts ==> resolve(k).Err?
    decreases MaxAttempts - i
  {
    if i == MaxAttempts then BootRun(None, MaxAttempts, MaxRetries)
    else
      match resolve(i)
      case Ok(h) => BootRun(Some(h), i + 1, i)
      case Err(_) => RetryFrom(resolve, i + 1)
  }

  /** The whole bootstrap: the initial lookup, then the retries if it failed. */
  function ResolveDohHost(resolve: Resolver): (b: BootRun)
    ensures 1 <= b.attempts <= MaxAttempts
    ensures b.sleeps == b.attempts - 1
    ensures b.host.Some? <==> CanResolve(resolve)
    // attempts stop at the first success
    ensures forall k :: 0 <= k < b.attempts - 1 ==> resolve(k).Err?
    ensures b.host.Some? ==> resolve(b.attempts - 1) == Ok(b.host.value)
    // giving up happens only after the full budget
    ensures b.host.None? ==> b.attempts == MaxAttempts && b.sleeps == MaxRetries
  {
    match resolve(0)
    case Ok(h) => BootRun(Some(h), 1, 0)
    case Err(_) => RetryFrom(resolve, 1)
  }

  /**
    The loop as `RunDNS` writes it: the initial lookup, then
    `for i := 1; i < 6; i++` sleeping before each retry and leaving the
    loop at the first success. It makes the same lookups, sleeps and
    result as the recursive description above.
   */
  method RetryLoop(resolve: Resolver) returns (host: Option<Msg>, attempts: nat, sleeps: nat)
    ensures BootRun(host, attempts, sleeps) == ResolveDohHost(resolve)
    ensures host.None? ==> attempts == MaxAttempts && sleeps == MaxRetries
  {
    var r := resolve(0);
    attempts, sleeps := 1, 0;
    if r.Err? {
      var i := 1;
      while i < MaxAttempts
        invariant 1 <= i <= MaxAttempts
        invariant attempts == i && sleeps == i - 1
        invariant r.Err?
        invariant RetryFrom(resolve, i) == ResolveDohHost(resolve)
      {
        sleeps := sleeps + 1;  // time.Sleep(time.Second * 1)
        r := resolve(i);
        attempts := attempts + 1;
        if r.Ok? {
          break;
        }
        i := i + 1;
      }
      if r.Err? {
        return None, attempts, sleeps;
      }
    }
    host := Some(r.value);
  }
}

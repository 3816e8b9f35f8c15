/** The value-level view of the HTTP client configuration: the record of the
    seven settings, one operation per setter, and the transition each setter
    makes, with the properties the setters promise.  The class in
    http_options.dfy is proved against these definitions. */
module HttpConfig {

  /** Java's `int`: every stored setting and every setter argument is a
      32-bit signed integer. */
  newtype int32 = x: int | -0x8000_0000 <= x < 0x8000_0000

  /** A reference that may be `null`. */
  datatype Option<T> = None | Some(value: T)

  /** How a setter call ends: normally, or by throwing an
      `IllegalArgumentException` that carries `message`. */
  datatype Outcome = Pass | Fail(message: string)

  const DefaultConnectTimeout: int32 := 10
  const DefaultReadTimeout: int32 := 10
  const DefaultMgmtApiMaxRetries: int32 := 3
  const DefaultMaxRequests: int32 := 64
  const DefaultMaxRequestsPerHost: int32 := 5

  /** The largest retry count the management API client accepts. */
  const MaxRetriesLimit: int32 := 10

  const RetriesMessage := "Retries must be between zero and ten."
  const MaxRequestsPerHostMessage := "maxRequestsPerHost must be one or greater."
  const MaxRequestsMessage := "maxRequests must be one or greater."

  /** The fields of an `HttpOptions` object.  `P` and `L` stand for the proxy
      and logging option objects, which this model treats as opaque. */
  datatype Settings<P, L> = Settings(
    proxyOptions: Option<P>,
    connectTimeout: int32,
    readTimeout: int32,
    mgmtApiMaxRetries: int32,
    maxRequests: int32,
    maxRequestsPerHost: int32,
    loggingOptions: Option<L>)

  /** The ranges every reachable configuration keeps. */
  predicate ValidSettings<P, L>(s: Settings<P, L>) {
    && 0 <= s.connectTimeout
    && 0 <= s.readTimeout
    && 0 <= s.mgmtApiMaxRetries <= MaxRetriesLimit
    && 1 <= s.maxRequests
    && 1 <= s.maxRequestsPerHost
  }

  /** The configuration of a freshly constructed object. */
  function Defaults<P, L>(): (s: Settings<P, L>)
    ensures ValidSettings(s)
    ensures s.proxyOptions.None? && s.loggingOptions.None?
  {
    Settings(None, DefaultConnectTimeout, DefaultReadTimeout, DefaultMgmtApiMaxRetries,
             DefaultMaxRequests, DefaultMaxRequestsPerHost, None)
  }

  /** One setter call with its argument. */
  datatype Op<P, L> =
    | SetProxyOptions(proxy: Option<P>)
    | SetConnectTimeout(connectTimeout: int32)
    | SetReadTimeout(readTimeout: int32)
    | SetLoggingOptions(logging: Option<L>)
    | SetManagementAPIMaxRetries(maxRetries: int32)
    | SetMaxRequestsPerHost(maxRequestsPerHost: int32)
    | SetMaxRequests(maxRequests: int32)

  /** The field a setter writes. */
  datatype Field =
    | ProxyOptionsField
    | ConnectTimeoutField
    | ReadTimeoutField
    | LoggingOptionsField
    | MgmtApiMaxRetriesField
    | MaxRequestsPerHostField
    | MaxRequestsField

  function Target<P, L>(op: Op<P, L>): Field {
    match op
    case SetProxyOptions(_) => ProxyOptionsField
    case SetConnectTimeout(_) => ConnectTimeoutField
    case SetReadTimeout(_) => ReadTimeoutField
    case SetLoggingOptions(_) => LoggingOptionsField
    case SetManagementAPIMaxRetries(_) => MgmtApiMaxRetriesField
    case SetMaxRequestsPerHost(_) => MaxRequestsPerHostField
    case SetMaxRequests(_) => MaxRequestsField
  }

  /** The documented argument ranges: a setter accepts exactly these. */
  predicate Admissible<P, L>(op: Op<P, L>) {
    match op
    case SetManagementAPIMaxRetries(n) => 0 <= n <= MaxRetriesLimit
    case SetMaxRequestsPerHost(n) => 1 <= n
    case SetMaxRequests(n) => 1 <= n
    case _ => true
  }

  /** A timeout argument as stored: negative numbers are treated as zero.
      The three conditions together say that `r` is the maximum of `t` and 0. */
  function ClampTimeout(t: int32): (r: int32)
    ensures 0 <= r && t <= r
    ensures r == t || r == 0
  {
    if t < 0 then 0 else t
  }

  /** The configuration after a setter call, and how the call ended. */
  datatype Transition<P, L> = Transition(next: Settings<P, L>, outcome: Outcome)

  /** The effect of one setter call on the fields. */
  function Apply<P, L>(s: Settings<P, L>, op: Op<P, L>): (t: Transition<P, L>)
    ensures t.outcome.Pass? <==> Admissible(op)
    ensures t.outcome.Fail? ==> t.next == s
    ensures ValidSettings(s) ==> ValidSettings(t.next)
  {
    match op
    case SetProxyOptions(p) => Transition(s.(proxyOptions := p), Pass)
    case SetConnectTimeout(c) => Transition(s.(connectTimeout := ClampTimeout(c)), Pass)
    case SetReadTimeout(r) => Transition(s.(readTimeout := ClampTimeout(r)), Pass)
    case SetLoggingOptions(l) => Transition(s.(loggingOptions := l), Pass)
    case SetManagementAPIMaxRetries(n) =>
      if n < 0 || n > MaxRetriesLimit then Transition(s, Fail(RetriesMessage))
      else Transition(s.(mgmtApiMaxRetries := n), Pass)
    case SetMaxRequestsPerHost(n) =>
      if n < 1 then Transition(s, Fail(MaxRequestsPerHostMessage))
      else Transition(s.(maxRequestsPerHost := n), Pass)
    case SetMaxRequests(n) =>
      if n < 1 then Transition(s, Fail(MaxRequestsMessage))
      else Transition(s.(maxRequests := n), Pass)
  }

  /** The configuration after a sequence of setter calls, in order; a call
      that throws leaves the object as it was and the caller goes on. */
  function Run<P, L>(s: Settings<P, L>, ops: seq<Op<P, L>>): Settings<P, L>
    decreases |ops|
  {
    if ops == [] then s else Run(Apply(s, ops[0]).next, ops[1..])
  }

  /** The calls of `ops` that do not throw, in their order. */
  function Accepted<P, L>(ops: seq<Op<P, L>>): (r: seq<Op<P, L>>)
    ensures |r| <= |ops|
    ensures forall op :: op in r ==> op in ops && Admissible(op)
    ensures forall op :: op in ops && Admissible(op) ==> op in r
    decreases |ops|
  {
    if ops == [] then []
    else if Admissible(ops[0]) then [ops[0]] + Accepted(ops[1..])
    else Accepted(ops[1..])
  }

  // ---------------------------------------------------------------------
  // One setter at a time

  /** `setConnectTimeout(t)` never throws, stores the maximum of `t` and 0,
      and changes no other field. */
  lemma ConnectTimeoutSetter<P, L>(s: Settings<P, L>, t: int32)
    ensures Apply(s, SetConnectTimeout(t)).outcome == Pass
    ensures Apply(s, SetConnectTimeout(t)).next == s.(connectTimeout := ClampTimeout(t))
    ensures t >= 0 ==> Apply(s, SetConnectTimeout(t)).next.connectTimeout == t
    ensures t < 0 ==> Apply(s, SetConnectTimeout(t)).next.connectTimeout == 0
  {
  }

  /** `setReadTimeout(t)` never throws, stores the maximum of `t` and 0,
      and changes no other field. */
  lemma ReadTimeoutSetter<P, L>(s: Settings<P, L>, t: int32)
    ensures Apply(s, SetReadTimeout(t)).outcome == Pass
    ensures Apply(s, SetReadTimeout(t)).next == s.(readTimeout := ClampTimeout(t))
    ensures t >= 0 ==> Apply(s, SetReadTimeout(t)).next.readTimeout == t
    ensures t < 0 ==> Apply(s, SetReadTimeout(t)).next.readTimeout == 0
  {
  }

  /** `setManagementAPIMaxRetries(n)` stores exactly `n` when 0 <= n <= 10;
      otherwise it throws with its message and changes nothing. */
  lemma ManagementAPIMaxRetriesSetter<P, L>(s: Settings<P, L>, n: int32)
    ensures 0 <= n <= 10 ==>
      Apply(s, SetManagementAPIMaxRetries(n)) == Transition(s.(mgmtApiMaxRetries := n), Pass)
    ensures n < 0 || 10 < n ==>
      Apply(s, SetManagementAPIMaxRetries(n)) == Transition(s, Fail("Retries must be between zero and ten."))
  {
  }

  /** `setMaxRequestsPerHost(n)` stores exactly `n` when n >= 1; otherwise it
      throws with its message and changes nothing. */
  lemma MaxRequestsPerHostSetter<P, L>(s: Settings<P, L>, n: int32)
    ensures 1 <= n ==>
      Apply(s, SetMaxRequestsPerHost(n)) == Transition(s.(maxRequestsPerHost := n), Pass)
    ensures n < 1 ==>
      Apply(s, SetMaxRequestsPerHost(n)) == Transition(s, Fail("maxRequestsPerHost must be one or greater."))
  {
  }

  /** `setMaxRequests(n)` stores exactly `n` when n >= 1; otherwise it throws
      with its message and changes nothing. */
  lemma MaxRequestsSetter<P, L>(s: Settings<P, L>, n: int32)
    ensures 1 <= n ==>
      Apply(s, SetMaxRequests(n)) == Transition(s.(maxRequests := n), Pass)
    ensures n < 1 ==>
      Apply(s, SetMaxRequests(n)) == Transition(s, Fail("maxRequests must be one or greater."))
  {
  }

  /** `setProxyOptions(p)` never throws, stores exactly `p`, `null`
      included, and changes no other field. */
  lemma ProxyOptionsSetter<P, L>(s: Settings<P, L>, p: Option<P>)
    ensures Apply(s, SetProxyOptions(p)) == Transition(s.(proxyOptions := p), Pass)
  {
  }

  /** `setLoggingOptions(l)` never throws, stores exactly `l`, `null`
      included, and changes no other field. */
  lemma LoggingOptionsSetter<P, L>(s: Settings<P, L>, l: Option<L>)
    ensures Apply(s, SetLoggingOptions(l)) == Transition(s.(loggingOptions := l), Pass)
  {
  }

  // ---------------------------------------------------------------------
  // Several setters

  /** Setters of different fields do not interfere: their order does not
      matter, for the fields and for how each call ends. */
  lemma SettersOfDifferentFieldsCommute<P, L>(s: Settings<P, L>, a: Op<P, L>, b: Op<P, L>)
    requires Target(a) != Target(b)
    ensures Apply(Apply(s, a).next, b).next == Apply(Apply(s, b).next, a).next
    ensures Apply(Apply(s, a).next, b).outcome == Apply(s, b).outcome
  {
  }

  /** A call that does not throw overwrites whatever an earlier call to the
      same setter stored. */
  lemma LastWriteWins<P, L>(s: Settings<P, L>, a: Op<P, L>, b: Op<P, L>)
    requires Target(a) == Target(b) && Admissible(b)
    ensures Apply(Apply(s, a).next, b).next == Apply(s, b).next
  {
  }

  /** The class invariant: any sequence of setter calls, whether each one
      returns or throws, keeps every setting in its range. */
  lemma {:induction false} RunPreservesValid<P, L>(s: Settings<P, L>, ops: seq<Op<P, L>>)
    requires ValidSettings(s)
    ensures ValidSettings(Run(s, ops))
    decreases |ops|
  {
    if ops != [] {
      RunPreservesValid(Apply(s, ops[0]).next, ops[1..]);
    }
  }

  /** Starting from the defaults, every reachable configuration is valid. */
  lemma {:induction false} ReachableIsValid<P, L>(ops: seq<Op<P, L>>)
    ensures ValidSettings(Run(Defaults<P, L>(), ops))
  {
    RunPreservesValid(Defaults<P, L>(), ops);
  }

  /** A call that throws might as well not have been made: the configuration
      after a sequence of calls is the one after its accepted calls alone. */
  lemma {:induction false} RunIgnoresRejected<P, L>(s: Settings<P, L>, ops: seq<Op<P, L>>)
    ensures Run(s, ops) == Run(s, Accepted(ops))
    decreases |ops|
  {
    if ops != [] {
      var rest := Accepted(ops[1..]);
      RunIgnoresRejected(Apply(s, ops[0]).next, ops[1..]);
      if Admissible(ops[0]) {
        var acc := [ops[0]] + rest;
        assert Accepted(ops) == acc;
        assert acc[0] == ops[0] && acc[1..] == rest;
      }
    }
  }
}

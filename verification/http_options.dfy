/** The mutable configuration object handed to the API clients: one field per
    setting, setters that overwrite their own field in place, and getters
    that read it back.  Every setter is proved against `HttpConfig.Apply`. */
module HttpClientOptions {
  import opened HttpConfig

  class HttpOptions<P, L> {
    var proxyOptions: Option<P>
    var connectTimeout: int32
    var readTimeout: int32
    var mgmtApiMaxRetries: int32
    var maxRequests: int32
    var maxRequestsPerHost: int32
    var loggingOptions: Option<L>

    /** The fields of this object as a value. */
    ghost function Snapshot(): Settings<P, L>
      reads this
    {
      Settings(proxyOptions, connectTimeout, readTimeout, mgmtApiMaxRetries,
               maxRequests, maxRequestsPerHost, loggingOptions)
    }

    /** The object invariant: every setting lies in its documented range. */
    ghost predicate Valid()
      reads this
    {
      ValidSettings(Snapshot())
    }

    /** A new object holds the default settings and no proxy or logging
        options. */
    constructor ()
      ensures Valid()
      ensures Snapshot() == Defaults()
      ensures proxyOptions == None && loggingOptions == None
      ensures connectTimeout == 10 && readTimeout == 10 && mgmtApiMaxRetries == 3
      ensures maxRequests == 64 && maxRequestsPerHost == 5
    {
      proxyOptions := None;
      connectTimeout := DefaultConnectTimeout;
      readTimeout := DefaultReadTimeout;
      mgmtApiMaxRetries := DefaultMgmtApiMaxRetries;
      maxRequests := DefaultMaxRequests;
      maxRequestsPerHost := DefaultMaxRequestsPerHost;
      loggingOptions := None;
    }

    method GetProxyOptions() returns (p: Option<P>)
      ensures p == Snapshot().proxyOptions
    {
      p := proxyOptions;
    }

    method SetProxyOptions(p: Option<P>)
      requires Valid()
      modifies this
      ensures Valid()
      ensures Snapshot() == Apply(old(Snapshot()), Op.SetProxyOptions(p)).next
    {
      proxyOptions := p;
    }

    /** The connect timeout in seconds; never negative. */
    method GetConnectTimeout() returns (t: int32)
      requires Valid()
      ensures t == Snapshot().connectTimeout && 0 <= t
    {
      t := connectTimeout;
    }

    method SetConnectTimeout(timeout: int32)
      requires Valid()
      modifies this
      ensures Valid()
      ensures Snapshot() == Apply(old(Snapshot()), Op.SetConnectTimeout(timeout)).next
    {
      var t := timeout;
      if t < 0 {
        t := 0;
      }
      connectTimeout := t;
    }

    /** The read timeout in seconds; never negative. */
    method GetReadTimeout() returns (t: int32)
      requires Valid()
      ensures t == Snapshot().readTimeout && 0 <= t
    {
      t := readTimeout;
    }

    method SetReadTimeout(timeout: int32)
      requires Valid()
      modifies this
      ensures Valid()
      ensures Snapshot() == Apply(old(Snapshot()), Op.SetReadTimeout(timeout)).next
    {
      var t := timeout;
      if t < 0 {
        t := 0;
      }
      readTimeout := t;
    }

    method SetLoggingOptions(l: Option<L>)
      requires Valid()
      modifies this
      ensures Valid()
      ensures Snapshot() == Apply(old(Snapshot()), Op.SetLoggingOptions(l)).next
    {
      loggingOptions := l;
    }

    method GetLoggingOptions() returns (l: Option<L>)
      ensures l == Snapshot().loggingOptions
    {
      l := loggingOptions;
    }

    /** The retry count for rate-limited management API requests; between
        zero and ten. */
    method GetManagementAPIMaxRetries() returns (n: int32)
      requires Valid()
      ensures n == Snapshot().mgmtApiMaxRetries && 0 <= n <= 10
    {
      n := mgmtApiMaxRetries;
    }

    /** Throws (returns `Fail`) before touching any field when `maxRetries`
        is outside [0, 10]. */
    method SetManagementAPIMaxRetries(maxRetries: int32) returns (o: Outcome)
      requires Valid()
      modifies this
      ensures Valid()
      ensures Transition(Snapshot(), o) == Apply(old(Snapshot()), Op.SetManagementAPIMaxRetries(maxRetries))
    {
      if maxRetries < 0 || maxRetries > 10 {
        return Fail(RetriesMessage);
      }
      mgmtApiMaxRetries := maxRetries;
      o := Pass;
    }

    /** Throws (returns `Fail`) before touching any field when `n` < 1. */
    method SetMaxRequestsPerHost(n: int32) returns (o: Outcome)
      requires Valid()
      modifies this
      ensures Valid()
      ensures Transition(Snapshot(), o) == Apply(old(Snapshot()), Op.SetMaxRequestsPerHost(n))
    {
      if n < 1 {
        return Fail(MaxRequestsPerHostMessage);
      }
      maxRequestsPerHost := n;
      o := Pass;
    }

    /** The per-host concurrency ceiling; at least one. */
    method GetMaxRequestsPerHost() returns (n: int32)
      requires Valid()
      ensures n == Snapshot().maxRequestsPerHost && 1 <= n
    {
      n := maxRequestsPerHost;
    }

    /** Throws (returns `Fail`) before touching any field when `n` < 1. */
    method SetMaxRequests(n: int32) returns (o: Outcome)
      requires Valid()
      modifies this
      ensures Valid()
      ensures Transition(Snapshot(), o) == Apply(old(Snapshot()), Op.SetMaxRequests(n))
    {
      if n < 1 {
        return Fail(MaxRequestsMessage);
      }
      maxRequests := n;
      o := Pass;
    }

    /** The global concurrency ceiling; at least one. */
    method GetMaxRequests() returns (n: int32)
      requires Valid()
      ensures n == Snapshot().maxRequests && 1 <= n
    {
      n := maxRequests;
    }
  }

  /** The timeout configurations the API client relies on, in seconds: the
      defaults, configured values, and negative values read back as zero.
      Each case starts from a new object and uses the contracts above alone. */
  method TimeoutScenarios<P, L>()
    returns (defaultConnect: int32, defaultRead: int32,
             configuredConnect: int32, configuredRead: int32,
             clampedConnect: int32, clampedRead: int32)
    ensures defaultConnect == 10 && defaultRead == 10
    ensures configuredConnect == 20 && configuredRead == 30
    ensures clampedConnect == 0 && clampedRead == 0
  {
    var defaults := new HttpOptions<P, L>();
    defaultConnect := defaults.GetConnectTimeout();
    defaultRead := defaults.GetReadTimeout();

    var configured := new HttpOptions<P, L>();
    configured.SetConnectTimeout(20);
    configured.SetReadTimeout(30);
    configuredConnect := configured.GetConnectTimeout();
    configuredRead := configured.GetReadTimeout();

    var negative := new HttpOptions<P, L>();
    negative.SetConnectTimeout(-1);
    negative.SetReadTimeout(-10);
    clampedConnect := negative.GetConnectTimeout();
    clampedRead := negative.GetReadTimeout();
  }

  /** The concurrency ceilings the API client relies on: the defaults,
      configured values, and a zero ceiling rejected with its message. */
  method ConcurrencyScenarios<P, L>()
    returns (defaultMax: int32, configuredMax: int32, rejectedMax: Outcome,
             defaultPerHost: int32, configuredPerHost: int32, rejectedPerHost: Outcome)
    ensures defaultMax == 64 && configuredMax == 10
    ensures rejectedMax == Fail("maxRequests must be one or greater.")
    ensures defaultPerHost == 5 && configuredPerHost == 10
    ensures rejectedPerHost == Fail("maxRequestsPerHost must be one or greater.")
  {
    var defaults := new HttpOptions<P, L>();
    defaultMax := defaults.GetMaxRequests();
    defaultPerHost := defaults.GetMaxRequestsPerHost();

    var configured := new HttpOptions<P, L>();
    var o := configured.SetMaxRequests(10);
    configuredMax := configured.GetMaxRequests();
    o := configured.SetMaxRequestsPerHost(10);
    configuredPerHost := configured.GetMaxRequestsPerHost();

    var invalid := new HttpOptions<P, L>();
    rejectedMax := invalid.SetMaxRequests(0);
    rejectedPerHost := invalid.SetMaxRequestsPerHost(0);
  }

  /** The retry count on a new object: eleven is rejected with its message
      and the default of three is kept; zero, which disables retries, is
      accepted and stored. */
  method RetriesScenario<P, L>()
    returns (rejected: Outcome, kept: int32, accepted: Outcome, stored: int32)
    ensures rejected == Fail("Retries must be between zero and ten.") && kept == 3
    ensures accepted == Pass && stored == 0
  {
    var options := new HttpOptions<P, L>();
    rejected := options.SetManagementAPIMaxRetries(11);
    kept := options.GetManagementAPIMaxRetries();
    accepted := options.SetManagementAPIMaxRetries(0);
    stored := options.GetManagementAPIMaxRetries();
  }
}

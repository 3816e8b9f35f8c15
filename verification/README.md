# HttpOptions: the HTTP client configuration of the auth0 Java client

The API clients of the auth0 Java library take their HTTP settings from an
`HttpOptions` object: connect and read timeouts in seconds, the number of
retries the management API client makes on a rate-limited response, the
global and per-host ceilings on concurrent requests, and optional proxy and
logging options. The object starts with fixed defaults (10 s, 10 s, 3
retries, 64 requests, 5 per host, no proxy, no logging). Each setter
overwrites its own field. The timeout setters treat negative numbers as zero.
The retry and concurrency setters throw an `IllegalArgumentException` with a
fixed message, before touching any field, when the argument is out of range.

The project has two modules:

- `HttpConfig` (`http_config.dfy`) is the value-level description.
  `Settings` is the record of the seven fields and `Op` is one setter call.
  `Apply` is the effect of a call: the new fields and whether the call
  returned or threw. `Run` replays a sequence of calls. The lemmas state
  what each setter promises and what holds across several calls: the class
  invariant, non-interference of different setters, last write wins, and
  the fact that rejected calls leave no trace.
- `HttpClientOptions` (`http_options.dfy`) is the class `HttpOptions` with
  one mutable field per Java field. The getters are read-only methods. Each
  setter's `ensures` ties the object's new fields (`Snapshot()`) to `Apply`
  on the old ones. A throwing setter returns an `Outcome`: `Pass`, or
  `Fail(message)` in place of the exception. `TimeoutScenarios` and
  `ConcurrencyScenarios` state what the library's API-client tests observe
  for timeouts and concurrency ceilings, derived from the contracts alone.
  `RetriesScenario` adds the retry-count cases; the API-client tests never
  call `setManagementAPIMaxRetries`.

`HttpOptions` is mutable. Its ranges are checked by the setters on every
call: the retry range by `setManagementAPIMaxRetries`, not at construction.

Java's `int` is modelled by the newtype `int32`. No setter does arithmetic,
so no wrap-around arises. `ProxyOptions` and `LoggingOptions` are opaque
type parameters `P` and `L`. A Java `null` for them is `None`.

## Model

| member | source | states |
|---|---|---|
| HttpConfig.Defaults | src/main/java/com/auth0/client/HttpOptions.java:8-14 | the initial configuration satisfies the class invariant and has no proxy or logging options |
| HttpConfig.ClampTimeout | src/main/java/com/auth0/client/HttpOptions.java:47-52 | a stored timeout is non-negative, at least the argument, and either the argument or zero: the maximum of the argument and 0 |
| HttpConfig.Apply | src/main/java/com/auth0/client/HttpOptions.java:30-144 | a setter call returns normally exactly when its argument is in the documented range; a throwing call leaves every field unchanged; every call preserves the class invariant |
| HttpConfig.ConnectTimeoutSetter | src/main/java/com/auth0/client/HttpOptions.java:47-52 | setConnectTimeout never throws, stores t for t >= 0 and 0 for t < 0, and changes no other field |
| HttpConfig.ReadTimeoutSetter | src/main/java/com/auth0/client/HttpOptions.java:67-72 | setReadTimeout never throws, stores t for t >= 0 and 0 for t < 0, and changes no other field |
| HttpConfig.ManagementAPIMaxRetriesSetter | src/main/java/com/auth0/client/HttpOptions.java:108-113 | for 0 <= n <= 10 exactly n is stored and nothing else changes; otherwise the call fails with "Retries must be between zero and ten." and nothing changes |
| HttpConfig.MaxRequestsPerHostSetter | src/main/java/com/auth0/client/HttpOptions.java:120-125 | for n >= 1 exactly n is stored and nothing else changes; otherwise the call fails with "maxRequestsPerHost must be one or greater." and nothing changes |
| HttpConfig.MaxRequestsSetter | src/main/java/com/auth0/client/HttpOptions.java:139-144 | for n >= 1 exactly n is stored and nothing else changes; otherwise the call fails with "maxRequests must be one or greater." and nothing changes |
| HttpConfig.ProxyOptionsSetter | src/main/java/com/auth0/client/HttpOptions.java:30-32 | setProxyOptions stores exactly its argument, null included, never throws, and changes no other field |
| HttpConfig.LoggingOptionsSetter | src/main/java/com/auth0/client/HttpOptions.java:78-80 | setLoggingOptions stores exactly its argument, null included, never throws, and changes no other field |
| HttpConfig.SettersOfDifferentFieldsCommute | src/main/java/com/auth0/client/HttpOptions.java:30-144 | two setters of different fields give the same configuration in either order, and the first does not change how the second ends |
| HttpConfig.LastWriteWins | src/main/java/com/auth0/client/HttpOptions.java:30-144 | an accepted call to a setter overwrites whatever an earlier call to the same setter stored |
| HttpConfig.RunPreservesValid | src/main/java/com/auth0/client/HttpOptions.java:47-144 | any sequence of setter calls, returning or throwing, keeps both timeouts >= 0, retries in [0, 10] and both ceilings >= 1 |
| HttpConfig.ReachableIsValid | src/main/java/com/auth0/client/HttpOptions.java:8-14 | every configuration reachable from the defaults satisfies the class invariant |
| HttpConfig.RunIgnoresRejected | src/main/java/com/auth0/client/HttpOptions.java:108-144 | replaying a sequence of calls gives the same configuration as replaying only its calls that do not throw |
| HttpClientOptions.HttpOptions.constructor | src/main/java/com/auth0/client/HttpOptions.java:6-14 | a new object holds the defaults 10, 10, 3, 64, 5 and no proxy or logging options, and is valid |
| HttpClientOptions.HttpOptions.GetProxyOptions | src/main/java/com/auth0/client/HttpOptions.java:21-23 | returns the stored proxy options |
| HttpClientOptions.HttpOptions.SetProxyOptions | src/main/java/com/auth0/client/HttpOptions.java:30-32 | the new fields are Apply of the old fields and the call; the object stays valid |
| HttpClientOptions.HttpOptions.GetConnectTimeout | src/main/java/com/auth0/client/HttpOptions.java:38-40 | returns the stored connect timeout, which is never negative |
| HttpClientOptions.HttpOptions.SetConnectTimeout | src/main/java/com/auth0/client/HttpOptions.java:47-52 | the argument is clamped in place before it is stored; the new fields are Apply of the old fields and the call |
| HttpClientOptions.HttpOptions.GetReadTimeout | src/main/java/com/auth0/client/HttpOptions.java:57-59 | returns the stored read timeout, which is never negative |
| HttpClientOptions.HttpOptions.SetReadTimeout | src/main/java/com/auth0/client/HttpOptions.java:67-72 | the argument is clamped in place before it is stored; the new fields are Apply of the old fields and the call |
| HttpClientOptions.HttpOptions.SetLoggingOptions | src/main/java/com/auth0/client/HttpOptions.java:78-80 | the new fields are Apply of the old fields and the call; the object stays valid |
| HttpClientOptions.HttpOptions.GetLoggingOptions | src/main/java/com/auth0/client/HttpOptions.java:85-87 | returns the stored logging options |
| HttpClientOptions.HttpOptions.GetManagementAPIMaxRetries | src/main/java/com/auth0/client/HttpOptions.java:92-94 | returns the stored retry count, which lies in [0, 10] |
| HttpClientOptions.HttpOptions.SetManagementAPIMaxRetries | src/main/java/com/auth0/client/HttpOptions.java:108-113 | the new fields and the outcome (pass, or the exception's message) are exactly Apply of the old fields and the call |
| HttpClientOptions.HttpOptions.SetMaxRequestsPerHost | src/main/java/com/auth0/client/HttpOptions.java:120-125 | the new fields and the outcome are exactly Apply of the old fields and the call |
| HttpClientOptions.HttpOptions.GetMaxRequestsPerHost | src/main/java/com/auth0/client/HttpOptions.java:130-132 | returns the stored per-host ceiling, which is at least one |
| HttpClientOptions.HttpOptions.SetMaxRequests | src/main/java/com/auth0/client/HttpOptions.java:139-144 | the new fields and the outcome are exactly Apply of the old fields and the call |
| HttpClientOptions.HttpOptions.GetMaxRequests | src/main/java/com/auth0/client/HttpOptions.java:149-151 | returns the stored global ceiling, which is at least one |
| HttpClientOptions.TimeoutScenarios | src/test/java/com/auth0/client/auth/AuthAPITest.java:111-137 | on new objects: default timeouts read back as 10 and 10 seconds, configured 20 and 30 read back unchanged, and -1 and -10 read back as 0 |
| HttpClientOptions.ConcurrencyScenarios | src/test/java/com/auth0/client/auth/AuthAPITest.java:429-473 | on new objects: default ceilings read back as 64 and 5, configured 10 reads back as 10, and 0 is rejected with "maxRequests must be one or greater." or "maxRequestsPerHost must be one or greater." |
| HttpClientOptions.RetriesScenario | src/main/java/com/auth0/client/HttpOptions.java:108-113 | a case the tests do not cover: on a new object 11 is rejected with "Retries must be between zero and ten." and the default 3 is kept; 0 is then accepted and stored |

## Left out

- The contents of `ProxyOptions` and `LoggingOptions` (proxy host, Basic-auth credentials, log levels, redacted headers): their classes are not part of this model, so they are opaque values here.
- How the API clients consume the settings: the seconds-to-milliseconds conversion, the okhttp dispatcher that enforces the concurrency ceilings, and the management API's rate-limit retry loop. None of that code is part of this model.
- Proxy authentication, the construction of API error descriptions, logging and telemetry interceptors, and the authorize/logout URL builders. They are exercised only by tests that drive requests against a mock server, and their code is not part of this model.
- Java's passing of object references: the getters return the stored proxy or logging reference, and later mutation of that object through the reference (aliasing) is not modelled.

# Verified model of the apicorex gateway

apicorex is an API gateway: it admits plugins at run time, routes each request to the plugin whose manifest
declares the path, and puts five gates in front of the plugin: a firewall, permissions, rate limits per plugin
and per tenant, a concurrency cap and a circuit breaker. This project models those parts in Dafny and proves
what they promise, alone and together.

## How the model is laid out

| file | what it models |
|---|---|
| `TokenBucket`, `TokenBucketLaws`, `TokenBucketEviction`, `TokenBucketBound`, `TokenBucketSwept` | `internal/protection/ratelimiter.go`: the class, the exact token law, eviction, what it does to the bound, and the law of swept runs |
| `CircuitBreaker`, `CircuitBreakerLaws` | `internal/protection/circuit_breaker.go` |
| `Bulkhead`, `Firewall` | `internal/protection/bulkhead.go`, `firewall.go` |
| `Routes`, `Dispatcher` | the route table of `internal/dispatcher/dispatcher.go`, as a value and as a slice over a backing array |
| `Pipeline`, `PipelineInvariants`, `PipelineRates`, `PipelineGates`, `PipelineAnswers` | `Dispatch` as many requests in flight over shared state, and what each of its answers means |
| `Registry`, `Manifest`, `ControlPlane`, `ControlPlaneLaws` | `internal/registry/registry.go`, `internal/controlplane/handlers.go` |
| `Maintenance`, `MaintenanceLaws` | `internal/registry/maintenance.go` |
| `IdentityCache`, `IdentityCacheLaws` | `internal/auth/introspect.go`, `domain.go` |
| `Nav`, `NavLaws`, `NavMenu` | `internal/dispatcher/nav.go` |
| `ProductHosts`, `ProductHostsLaws`, `HostEntries` | `server/product_host.go`, `server/domain_resolve.go` |
| `PluginToken`, `Authz`, `Strings`, `Options` | `internal/controlplane/plugintoken.go`, `internal/middleware/authz.go`, and what the Go library does with strings and maps |

Objects whose methods change fields are classes, and each method is proved against a function on values. The
same functions make up the histories and state machines about which the laws are proved, so a law about
histories is a law about the classes. Every clock reading is a parameter of type `real`, in seconds; a run is
`Timely` when its readings do not decrease.

`Pipeline` takes each stretch of code under one lock as one step. A request steps through: firewall and match,
permission, liveness, maintenance, limiter lookup, plugin bucket, tenant bucket, slot, breaker, proxy, outcome,
release. Between any two of its steps any other request, a registration, a removal, a heartbeat, a failed
health check, an operator's reset, a maintenance call or the limiter sweep may take theirs. The proxied exchange
ends in an arbitrary way.

## Where the code and its comments or expectations differ

The model follows the code. Each point below is a lemma.

- A half-open breaker admits every call, not a single probe (comment at `circuit_breaker.go:43-44`):
  `HalfOpenAdmitsEveryCall`. A failed probe reopens it exactly when it is at least the threshold-th failure in
  a row, so a breaker that the health monitor forced open can stay half-open through failures:
  `FailedProbeReopensIff`, `FailedProbeMayNotReopen`.
- Evicting idle buckets changes no answer exactly when the burst is below one token or no more than the refill
  over the idle time: `EvictionInvisibleIff`. Under the very same condition, and no other, every window keeps to
  burst plus refill: `BoundedIff`. A larger tenant burst lets a tenant spend two buckets around one sweep.
- The rate bounds do not cover a request whose plugin is deregistered between its liveness check and the lookup
  of its limiters: it finds no limiter and passes both rate layers uncounted, as `DeregisteredGoesUncounted`
  shows. `UncountedIffDeregistered` says that this is the only way past the plugin-wide layer. Past the tenant
  layer there are two ways, having no verified tenant and finding no tenant limiter (`UnsharedIff`), and a plugin
  has one exactly while it is registered with a positive tenant rate (`TenantLimiterIff`).
- The 500 that `register` answers when the registry refuses the base URL cannot occur: a manifest has been pulled
  from that URL by then, so it parses. A registration changes nothing or replaces the running instance.
- A plugin whose name contains a dot gets a token that never verifies: `TokenOpensIff`.
- The caches' time to live counts from the store, not from Identity's reply; a slow caller can store an older
  answer over a newer one. The 30 s hold of the reply itself exactly if no store lags its reply at all
  (`RepliesStayYoungIff`); `ServedReplyAge` says how much a lag costs, `RevocationMayOutliveTtl` gives a run.
- `parseProductHosts` accepts an entry with a port alone, or with `[]` and a port, as the empty host, and a run of
  two or more slashes as the root prefix: `AcceptedHostEmptyIff`, `AcceptedPrefixRootIff`, with accepted entries
  in `BarePortAccepted` and `SlashesAccepted`.
- The custom-domain rewrite has no check for reserved paths. On a claimed host a reserved, unroutable path is moved
  out of the reserved namespaces unless what is put in front of it is itself reserved: `BlockedPathLeavesIff`.
- A panic in the proxy gives the slot back but records no outcome with the breaker: `OneOutcomePerAnswer`.

## Model

| member | source | states |
|---|---|---|
| TokenBucket.RateLimiter.constructor | internal/protection/ratelimiter.go:20-27 | A new limiter has no buckets |
| TokenBucket.RateLimiter.Allow | internal/protection/ratelimiter.go:30-50 | Admits exactly when the refilled bucket, capped at burst, holds a token, takes that token, and changes no other key |
| TokenBucket.RateLimiter.Tokens | internal/protection/ratelimiter.go:61-68 | The dashboard's peek: what the last call left, or a full burst for an unknown key |
| TokenBucket.RateLimiter.EvictIdle | internal/protection/ratelimiter.go:80-90 | The deleting loop drops exactly the keys last seen before the cutoff |
| TokenBucketLaws.ExactTokenLaw | internal/protection/ratelimiter.go:30-50 | After any run of calls on any keys, what a call would find is the least of burst and, over each earlier call on the key, burst plus what has been refilled since less what has been admitted since |
| TokenBucketLaws.RefusedIffWindowExhausted | internal/protection/ratelimiter.go:30-50 | A call is refused exactly when some window ending at it has less than one token left |
| TokenBucketLaws.OtherKeyKeepsWindows | internal/protection/ratelimiter.go:30-50 | Calls on other keys leave every window of a key as it was |
| TokenBucketLaws.WindowBoundUnswept | internal/protection/ratelimiter.go:30-50 | No time window admits more calls on a key than burst plus rate times its length |
| TokenBucketEviction.HarmlessIsInvisible | internal/protection/ratelimiter.go:80-90 | Under the condition, a run with sweeps anywhere gives the very answers of the run without them |
| TokenBucketEviction.WindowBound | internal/protection/ratelimiter.go:80-90 | Under it the window bound holds in spite of any sweeps |
| TokenBucketEviction.EvictionInvisibleIff | internal/protection/ratelimiter.go:80-90 | Sweeps at an idle limit are invisible to every run if and only if burst is below one token or at most rate times the limit |
| TokenBucketEviction.VisibleWithRefill | internal/protection/ratelimiter.go:80-90 | Otherwise, for every positive rate, some run tells the difference |
| TokenBucketEviction.VisibleWithoutRefill | internal/protection/ratelimiter.go:80-90 | And so it does at rate zero |
| TokenBucketSwept.SweptTokenLaw | internal/protection/ratelimiter.go:30-90 | The exact law of runs with any sweeps: what a call finds is the least of burst and the windows opened since a sweep last found the key idle |
| TokenBucketSwept.RefusedIffSpent | internal/protection/ratelimiter.go:30-90 | So a call is refused exactly when one of those windows has less than a token left |
| TokenBucketBound.BoundedIff | internal/protection/ratelimiter.go:80-90 | Every window of every key stays within burst plus refill under all sweep schedules if and only if burst is below one token or at most rate times the idle limit |
| Bulkheads.Bulkhead.Acquire | internal/protection/bulkhead.go:30-38 | Takes a slot of the plugin exactly when one is free |
| Bulkheads.Bulkhead.Release | internal/protection/bulkhead.go:41-48 | Gives one back, never below zero |
| CircuitBreaking.CircuitBreaker.Allow | internal/protection/circuit_breaker.go:45-60 | Refuses only while open and not past the timeout; past it, turns half-open; no other plugin changes |
| CircuitBreaking.CircuitBreaker.RecordSuccess | internal/protection/circuit_breaker.go:63-68 | Closes and clears the count of this plugin only |
| CircuitBreaking.CircuitBreaker.RecordFailure | internal/protection/circuit_breaker.go:72-80 | Counts, stamps the time, and opens at the threshold, for this plugin only |
| CircuitBreaking.CircuitBreaker.ResetPlugin | internal/protection/circuit_breaker.go:86-91 | The operator's reset |
| CircuitBreaking.CircuitBreaker.Trip | internal/protection/circuit_breaker.go:94-99 | ForceOpen: opens and stamps the time without counting |
| CircuitBreakerLaws.CountsAgree | internal/protection/circuit_breaker.go:63-91 | The stored count is the number of failures since the last success or reset, and the stored time that of the last failure or forced opening |
| CircuitBreakerLaws.ClosedIff | internal/protection/circuit_breaker.go:45-99 | Closed if and only if since then there was no forced opening and fewer failures than the threshold |
| CircuitBreakerLaws.OpenIff | internal/protection/circuit_breaker.go:45-99 | Open if and only if some event opened it and nothing since cured it or came late enough to probe |
| CircuitBreakerLaws.RefusedIff | internal/protection/circuit_breaker.go:45-60 | A call is refused exactly when it is held open and the timeout since the last failure has not passed |
| CircuitBreakerLaws.RefusedAfterTrip | internal/protection/circuit_breaker.go:45-99 | After a trip every call within the timeout is refused unless a success or reset came in between, late failures included |
| CircuitBreakerLaws.AdmittedWhenQuiet | internal/protection/circuit_breaker.go:45-99 | With no failure or forced opening in the preceding timeout every call is admitted |
| CircuitBreakerLaws.HalfOpenAdmitsEveryCall | internal/protection/circuit_breaker.go:57-58 | Half-open, any number of calls are admitted and it stays half-open |
| CircuitBreakerLaws.FailedProbeReopensIff | internal/protection/circuit_breaker.go:72-80 | A failure while half-open reopens it exactly when the failures in a row reach the threshold |
| CircuitBreakerLaws.FailedProbeMayNotReopen | internal/protection/circuit_breaker.go:94-99 | Forced open, probed, failed: still half-open |
| Routes.PatternMatchIff | internal/dispatcher/dispatcher.go:269-284 | A pattern matches exactly when some slash-free strings for its parameter segments turn it into the path, both trimmed of slashes |
| Routes.MatchPattern | internal/dispatcher/dispatcher.go:269-284 | The loop over the segments decides just that |
| Routes.MatchIsWinner | internal/dispatcher/dispatcher.go:238-262 | Of the entries with the request's method or `*`, the winner is the first whose pattern is the very path or, if the table has none, the first whose pattern is filled in to it or is a catch-all above it; no answer means that none does |
| Routes.ServesIff | internal/dispatcher/dispatcher.go:264-266 | What it takes for one entry to serve a request, on the entry's fields |
| Routes.Entries | internal/dispatcher/dispatcher.go:118-127 | One entry per declared route, in order, with its path, public flag, permission and upper-cased method |
| Routes.RemovalChangesIff | internal/dispatcher/dispatcher.go:228-262 | Removing plugins changes a request's answer exactly when one of them had won it |
| Routes.AdditionChangesIff | internal/dispatcher/dispatcher.go:114-127 | Adding a fresh plugin changes it exactly when nothing matched and it does, or nothing matched literally and it declares the very path |
| Routes.WithoutTwice | internal/dispatcher/dispatcher.go:228-236 | Filtering one set of plugins out after another filters out their union |
| Dispatchers.Dispatcher.DropRoutes | internal/dispatcher/dispatcher.go:228-236 | The filter over its own backing array leaves exactly the other plugins' entries, in order |
| Dispatchers.Dispatcher.Append | internal/dispatcher/dispatcher.go:118-127 | One more entry at the end, in place or in a grown array |
| Dispatchers.Dispatcher.AddRoutes | internal/dispatcher/dispatcher.go:114-155 | Drops the plugin's old routes, appends the new ones in order, and installs fresh limiters with the scaled limits |
| Dispatchers.Dispatcher.RemoveRoutes | internal/dispatcher/dispatcher.go:220-226 | Drops the plugin's routes and both its limiters, nothing else |
| Dispatchers.Dispatcher.MatchRoute | internal/dispatcher/dispatcher.go:238-262 | The two loops find that winner, or nothing if no entry serves the request |
| Dispatchers.Scale | internal/dispatcher/dispatcher.go:128-150 | A public plugin without an override gets a tenth of rate and burst, any other plugin all of them |
| PipelineInvariants.CircuitIsItsHistory | internal/dispatcher/dispatcher.go:330-505 | In every interleaving each plugin's breaker is what the calls, outcomes, resets and forced openings read off the run make it |
| PipelineInvariants.WindowsAreTheirHistory | internal/dispatcher/dispatcher.go:378-389 | The same for the maintenance windows, dropped lazily by requests |
| PipelineInvariants.CoreIsItsHistory | internal/dispatcher/dispatcher.go:330-505 | The same for registry, routes and limiter maps, which no request changes |
| PipelineInvariants.BulkheadExact | internal/dispatcher/dispatcher.go:416-505 | In every interleaving the bulkhead's count is the number of requests holding a slot, and within the maximum |
| PipelineInvariants.ReleaseGuardNeverNeeded | internal/protection/bulkhead.go:41-48 | Whoever releases is counted: the guard at zero decides nothing |
| PipelineInvariants.OneOutcomePerAnswer | internal/dispatcher/dispatcher.go:423-505 | Before its release a request has recorded exactly one outcome if the breaker admitted it and its plugin answered, and none otherwise |
| PipelineRates.EveryLimiterSound | internal/dispatcher/dispatcher.go:391-414 | In every interleaving a limiter's buckets are what its own history makes them, and a plugin-wide one is never swept |
| PipelineRates.MapsAlwaysGood | internal/dispatcher/dispatcher.go:396-399 | The limiter maps only ever name existing limiters, of the right kind and made for that plugin ID |
| PipelineRates.EveryReceiptBacked | internal/dispatcher/dispatcher.go:400-414 | A request's receipt is backed by an admission that limiter gave to it, at that time and under that key |
| PipelineRates.ReceiptsAreOwn | internal/dispatcher/dispatcher.go:396-414 | A receipt is from a limiter made for the plugin the request was routed to, under that plugin's key or that plugin's key for the request's own tenant |
| PipelineRates.LimiterIsMade | internal/dispatcher/dispatcher.go:114-155 | Every limiter goes back to a registration of its plugin ID and has the limits, scaled, of that registration |
| PipelineRates.OneLimiterEach | internal/dispatcher/dispatcher.go:114-155 | An ID registered once has at most one limiter of each kind |
| PipelineRates.ServedAtMostPassed | internal/dispatcher/dispatcher.go:400-414 | Different requests were given different admissions |
| PipelineRates.LimiterRateBound | internal/dispatcher/dispatcher.go:396-404 | In every interleaving and every time window a limiter lets at most burst plus rate times the length past the plugin-wide layer, all of them requests for its plugin |
| PipelineRates.TenantLimiterRateBound | internal/dispatcher/dispatcher.go:405-414 | The same per tenant, under sweeps that are harmless |
| PipelineRates.PluginRateBound | internal/dispatcher/dispatcher.go:396-404 | Of all requests routed to a plugin ID registered once, in every interleaving and every time window, at most the registration's burst plus its rate times the length are admitted by the plugin-wide layer |
| PipelineRates.TenantRateBound | internal/dispatcher/dispatcher.go:405-414 | Of all requests of a tenant routed to it, at most the tenant burst plus rate times the length are admitted by the tenant layer, under sweeps that are harmless for these limits |
| PipelineGates.ProxiedIsEntitled | internal/dispatcher/dispatcher.go:341-368 | In every interleaving a request holding a route is for no reserved path, the route serves it and, past the permission check, the route is open or the caller is a platform admin or granted what it asks for |
| PipelineAnswers.FirewallDecides | internal/protection/firewall.go:11-25 | In every interleaving exactly the requests below `/internal/`, `/admin/` and `/_core/` are turned away by the firewall |
| PipelineAnswers.RoutingDecides | internal/dispatcher/dispatcher.go:347-352 | Any other request gets the winning route, or a 404 exactly when no entry of the table serves it |
| PipelineAnswers.PermissionDecides | internal/dispatcher/dispatcher.go:354-362 | In every interleaving a request past the permission check was refused there exactly when its route is not public, asks for a permission, and the caller is no platform admin and has no grant of it, wildcards spelled out |
| PipelineAnswers.UnavailableIff | internal/dispatcher/dispatcher.go:364-369 | A request is told its plugin is unavailable exactly when it is not registered any more or its last report was a failed health check |
| PipelineAnswers.RegistryIsItsHistory | internal/registry/registry.go:58-118 | Which plugins are registered and alive, read off the run's registrations, removals, heartbeats and failed checks |
| PipelineAnswers.RateLimitedIff | internal/dispatcher/dispatcher.go:400-404 | In every reachable state the plugin-wide layer refuses exactly when the plugin's limiter has a window ending now with less than a token left |
| PipelineAnswers.TenantRateLimitedIff | internal/dispatcher/dispatcher.go:405-414 | And the tenant layer exactly when the caller's tenant has one, among the windows since a sweep last found the tenant idle |
| PipelineAnswers.BusyIff | internal/dispatcher/dispatcher.go:416-421 | A request finds the plugin busy exactly when the maximum of requests, or more, hold a slot |
| PipelineAnswers.PanicsAreNotAnswers | internal/dispatcher/dispatcher.go:484-497 | In every interleaving what a request carries as its plugin's answer is no panic, so a panic is reported as neither failure nor success |
| Maintenances.Clamp | internal/registry/maintenance.go:55-57 | A duration stands if it is positive and at most fifteen minutes, and becomes fifteen minutes otherwise |
| PipelineAnswers.OutcomeReported | internal/dispatcher/dispatcher.go:478-497 | An answer of 500 or more goes into its plugin's breaker history as a failure, any other as a success, and into no other history |
| Firewall.BlockedIff | internal/protection/firewall.go:11-25 | A path is blocked exactly if it is one of the three reserved prefixes and something or nothing behind it |
| PipelineGates.MatchedIsRegistered | internal/dispatcher/dispatcher.go:347-352 | The route given to a request is declared by a plugin registered at that moment, under its name |
| PipelineGates.EarlyRefusalSpendsNothing | internal/dispatcher/dispatcher.go:341-414 | Requests refused by firewall, routing, permission, liveness or maintenance appear in no limiter's history; the others at most once in each |
| PipelineGates.BreakerRefusesIff | internal/dispatcher/dispatcher.go:423-428 | In every reachable state the breaker turns a request away exactly when its history holds it open |
| PipelineGates.MaintenanceRefusesIff | internal/dispatcher/dispatcher.go:371-389 | In every reachable state maintenance turns a request away exactly when the history of Sets and Clears says so, naming the least whole number of seconds beyond the window's end, 1 to 901 |
| PipelineGates.UncountedIffDeregistered | internal/dispatcher/dispatcher.go:396-404 | A request passes the plugin-wide layer uncounted exactly when its plugin was gone at the limiter lookup |
| PipelineGates.UnsharedIff | internal/dispatcher/dispatcher.go:405-414 | A request passes the tenant layer uncounted exactly when it has no verified tenant or its plugin had no tenant limiter at the lookup |
| PipelineGates.TenantLimiterIff | internal/dispatcher/dispatcher.go:114-155 | A plugin has a tenant limiter exactly while it is registered, by a registration with a positive tenant rate |
| PipelineGates.GoneGoesThrough | internal/dispatcher/dispatcher.go:396-414 | Such a request passes both rate layers and no limiter changes |
| PipelineGates.DeregisteredGoesUncounted | internal/dispatcher/dispatcher.go:396-414 | A concrete run: with limits that admit nothing the request is refused, and with a deregistration in time it passes |
| Registries.Registry.Register | internal/registry/registry.go:58-86 | Stores the entry under its ID, alive, if the base URL parses |
| Registries.Registry.Heartbeat | internal/registry/registry.go:89-100 | Revives and stamps a known plugin and no other |
| Registries.Registry.Deregister | internal/registry/registry.go:103-107 | Removes the ID |
| Registries.Registry.MarkDead | internal/registry/registry.go:111-118 | Flags the plugin, keeping it registered |
| Registries.Registry.List | internal/registry/registry.go:129-137 | Every entry once, in whatever order the map yields |
| Registries.Registry.IDsByName | internal/registry/registry.go:153-163 | Exactly the IDs registered under the name |
| Registries.Registry.FindByName | internal/registry/registry.go:140-149 | A live plugin of the name, if there is one |
| ControlPlane.Handlers.Register | internal/controlplane/handlers.go:283-335 | Who is refused, for a wrong key, no base URL, no manifest or a name outside a nonempty list, and that this changes nothing; that otherwise, never failing halfway, registry, routes and limiters together lose every instance of the name and gain the new one with fresh limiters of the scaled limits |
| ControlPlane.Handlers.EvictNamed | internal/controlplane/handlers.go:315-318 | The eviction loop removes every instance of the name from every store |
| ControlPlane.Handlers.Deregister | internal/controlplane/handlers.go:262-276 | Removes the plugin from registry, routes and limiter maps, or does nothing |
| ControlPlane.Handlers.Heartbeat | internal/controlplane/handlers.go:337-355 | Revives the plugin if its token is good and it is registered |
| ControlPlane.Handlers.Evict | internal/controlplane/handlers.go:315-318 | One turn of the eviction loop |
| ControlPlaneLaws.StaysInStep | internal/controlplane/handlers.go:262-378 | After every history: names unique, bucket keys equal the registry IDs, tenant bucket keys among them, and the route table the registered plugins' routes in registration order |
| ControlPlaneLaws.MatchNamesRegistered | internal/dispatcher/dispatcher.go:238-262 | After every history a match names a registered plugin, by its name, with one of its manifest's routes |
| ControlPlaneLaws.RegisterKeepsOthers | internal/controlplane/handlers.go:312-327 | A registration leaves the entry, the routes and both limiters of every plugin of another name as they were |
| ControlPlaneLaws.RegistrationReplaces | internal/controlplane/handlers.go:312-327 | After a registration the new instance is the only one of its name, its routes stand last, and the rest of the table is the old one without the name's routes |
| ControlPlaneLaws.LimitersAreBorn | internal/dispatcher/dispatcher.go:114-155 | A registered plugin has the limiters its last registration brought |
| ControlPlaneLaws.TokenOpensIff | internal/controlplane/handlers.go:385-388 | The token from a registration opens an ID exactly when it is the registered one, the name has no dot and a day has not passed |
| PluginTokens.DecodeEncode | internal/controlplane/plugintoken.go:27-40 | Unpadded base64url (sections 5 and 3.2 of RFC 4648): decoding inverts encoding on every byte string |
| PluginTokens.DigitIsInTable | internal/controlplane/plugintoken.go:27-40 | The digits are those of the URL-safe alphabet (table 2 of RFC 4648) |
| PluginTokens.QuadIsOneNumber | internal/controlplane/plugintoken.go:27-40 | Four digits and their three bytes are one number of 24 bits, highest first |
| PluginTokens.BreaksIgnored | internal/controlplane/plugintoken.go:37-40 | A line break anywhere in a token changes nothing |
| PluginTokens.ParseFormatInt | internal/controlplane/plugintoken.go:28-52 | Decimal int64: parsing inverts printing |
| PluginTokens.FormatNatUnique | internal/controlplane/plugintoken.go:28-29 | What is printed is the only spelling of the number without leading zeros |
| PluginTokens.ParseSigned | internal/controlplane/plugintoken.go:49-52 | A sign is understood and nothing outside 64 bits is accepted |
| PluginTokens.VerifyIssue | internal/controlplane/plugintoken.go:27-54 | A token verifies to the ID it was issued for until it expires exactly when the ID has no dot, and otherwise is malformed or expired |
| PluginTokens.VerifiedWasSigned | internal/controlplane/plugintoken.go:36-54 | Whatever verifies is an ID and an unexpired time under the signature of just these |
| PluginTokens.OpensIff | internal/controlplane/handlers.go:385-388 | A token opens the ID it was signed for and no other |
| Maintenances.MaintenanceStore.SetMaintenance | internal/registry/maintenance.go:54-69 | Clamps the duration to 15 minutes, keeps Since while extending, touches one name |
| Maintenances.MaintenanceStore.ClearMaintenance | internal/registry/maintenance.go:72-76 | Drops one name's window |
| Maintenances.MaintenanceStore.MaintenanceFor | internal/registry/maintenance.go:82-94 | The window unless it has expired; an expired one is dropped |
| Maintenances.MaintenanceStore.List | internal/registry/maintenance.go:97-112 | Exactly the open windows, the store pruned to them |
| MaintenanceLaws.MaintenanceIsItsHistory | internal/registry/maintenance.go:54-94 | The answer is the history's: last word a Set, still running, Since the start of the unbroken chain of Sets |
| MaintenanceLaws.LazyDropInvisible | internal/registry/maintenance.go:78-92 | No answer depends on who asked before |
| MaintenanceLaws.RetryAfterRange | internal/dispatcher/dispatcher.go:378-389 | Retry-After is between 1 and 901 seconds |
| MaintenanceLaws.RetryAfterIsTight | internal/dispatcher/dispatcher.go:378-389 | It is the least whole number of seconds that lies beyond the window |
| MaintenanceLaws.WaitingRetryAfterOut | internal/dispatcher/dispatcher.go:378-389 | Waiting it out with no new Set lands after the window, whatever else happens meanwhile |
| IdentityCaches.Sweep | internal/auth/introspect.go:130-135 | The deleting loop drops exactly the expired entries |
| IdentityCaches.QueryKeysDistinct | internal/auth/introspect.go:116-147 | Queries by hex hash and user, and by platform token, never share a cache key |
| IdentityCaches.Introspector.Resolve | internal/auth/introspect.go:116-169 | Hit, or fetch, sweep and store; unavailability is not stored |
| IdentityCaches.DomainResolver.Resolve | internal/auth/domain.go:64-87 | The same under the normalised hostname |
| IdentityCaches.NormalizedIff | internal/auth/domain.go:65 | Two hostnames share a cache key exactly if they are white space around cores that agree up to ASCII letter case |
| IdentityCacheLaws.HitIffRecentlyStored | internal/auth/introspect.go:116-169 | In every interleaving a lookup hits exactly when the last store under its key is under 30 s old: sweeping changes nothing |
| IdentityCacheLaws.EveryRunSound | internal/auth/introspect.go:116-169 | Every answer served was stored under its key by someone whom Identity had given it |
| IdentityCacheLaws.IntrospectionFresh | internal/auth/introspect.go:116-169 | What is served at t was stored at c with c <= t < c + 30 s and came from Identity for exactly this hash and user or platform token |
| IdentityCacheLaws.DomainFresh | internal/auth/domain.go:64-87 | The same for hostnames: what is served was stored within 30 s for one that differs in outer white space and letter case at most, and Identity gave it for that |
| IdentityCacheLaws.ServedReplyAge | internal/auth/introspect.go:126-138 | If stores lag replies by at most a delay, the reply behind a served answer is younger than the delay plus 30 s |
| IdentityCacheLaws.RepliesStayYoungIff | internal/auth/introspect.go:35-36 | All runs whose stores lag replies by at most a delay serve only replies under 30 s old if and only if the delay is not positive |
| IdentityCacheLaws.RevocationMayOutliveTtl | internal/auth/introspect.go:126-138 | A timely run that serves an answer more than 30 s after Identity took it back |
| Nav.BuildNav | internal/dispatcher/nav.go:62-131 | The loops and the sort compute the menu |
| NavMenu.MenuInOrder | internal/dispatcher/nav.go:116-130 | Of two entries of the menu the earlier has no larger group sort, among equals no later group name, among equals no larger declared sort, being that of the first item with its key, and among equals no later plugin name; names differ first where a character is smaller |
| NavMenu.MenuOnFields | internal/dispatcher/nav.go:65-107 | An entry is in the menu exactly if it shows, field by field, an item of a live plugin with address and key whose permission is granted and whose feature, qualified where it is not, is on |
| NavLaws.BeforeTrichotomy | internal/dispatcher/nav.go:116-129 | Of two ranks exactly one comes first unless they are equal |
| NavLaws.BeforeTransitive | internal/dispatcher/nav.go:116-129 | The comparator is transitive, hence a strict weak order |
| NavLaws.SortIsStable | internal/dispatcher/nav.go:116-129 | Sorting sorts, and keeps the order of equals for every rank |
| NavLaws.StableSortUnique | internal/dispatcher/nav.go:116-129 | Two sorted lists with the same order of equals are the same list |
| NavLaws.MenuHoldsExactlyOffers | internal/dispatcher/nav.go:62-131 | The menu is sorted and holds exactly what live plugins offer this caller |
| NavLaws.MenuEntriesAuthorized | internal/dispatcher/nav.go:82-84 | Every entry's permission would pass the gateway's own check |
| NavLaws.TiesInManifestOrder | internal/dispatcher/nav.go:108-131 | Ties stand in manifest order |
| NavLaws.MenuInAnyOrder | internal/dispatcher/nav.go:62-147 | With distinct names every order of the plugin list gives the same menu |
| NavLaws.ListingsGiveOneMenu | internal/registry/registry.go:129-137 | After every control-plane history, any two listings of the registry give one caller the same menu |
| ProductHosts.ParseProductHosts | server/product_host.go:35-78 | The parsing loop, with the first error of the list |
| ProductHosts.Request.ProductHostRewrite | server/product_host.go:104-137 | Changes path and header exactly on a known host with a path neither routable nor reserved |
| ProductHosts.Request.ResolveCustomDomain | server/domain_resolve.go:33-77 | Changes path, header and tenant exactly on a claimed host with an unroutable path |
| ProductHostsLaws.AcceptedIff | server/product_host.go:35-78 | A setting is accepted exactly when each non-blank item parses and no host repeats, and then maps one host per item |
| ProductHostsLaws.AcceptedHostsGood | server/product_host.go:64-76 | Every accepted prefix is rooted and not reserved |
| ProductHostsLaws.RewriteRespectsFirewall | server/product_host.go:104-131 | For every accepted setting and every request path, empty, rooted or the asterisk, the rewrite moves nothing into or out of a reserved namespace and leaves routable or reserved paths alone |
| ProductHostsLaws.CatchAllRoutes | internal/dispatcher/dispatcher.go:255-258 | A registered catch-all makes everything under its prefix routable |
| ProductHostsLaws.ProductRewriteIsFinal | server/domain_resolve.go:39-43 | With the catch-all registered the product-host rewrite is routable and both rewrites, run again, change nothing |
| ProductHostsLaws.SecondPassSettlesIff | server/product_host.go:104-137 | Whenever the result of both rewrites routes, a second pass changes nothing; on unclaimed hosts it otherwise settles exactly if the first pass added nothing or added the root to slashes |
| ProductHostsLaws.BlockedPathLeavesIff | server/domain_resolve.go:39-75 | A reserved, unroutable path stays under the first rewrite and leaves under the second exactly on a claimed host whose base is not reserved itself or, if that is empty, when the path is a bare reserved prefix |
| HostEntries.AcceptedHostEmptyIff | server/product_host.go:50-60 | An accepted host is empty exactly when the entry gives `:` or `[]:` followed by no colon and no bracket |
| HostEntries.BarePortAccepted | server/product_host.go:50-60 | And entries with a port alone are accepted |
| HostEntries.EntryIff | server/product_host.go:46-72 | An entry is accepted, as key and prefix, exactly if it reads, white space aside, as a bare host, an equals sign and a prefix that is neither empty nor one slash nor reserved; the prefix is rooted and loses its outer slashes |
| HostEntries.SplitHostIff | server/product_host.go:141-146 | Which host a `host:port` or `[host]:port` address names |
| HostEntries.HostKeyIff | server/product_host.go:122-123 | Two addresses share a key exactly if they name one host up to ASCII letter case |
| HostEntries.PortIgnored | server/product_host.go:141-146 | A plain host has one key with a port and without |
| ProductHostsLaws.IsRoutableIff | internal/dispatcher/dispatcher.go:297-301 | A path is routable exactly if some entry serves it |
| ProductHostsLaws.AcceptedPrefixRootIff | server/product_host.go:64-67 | An accepted prefix is the root exactly when the entry gives two or more slashes only |
| ProductHostsLaws.SlashesAccepted | server/product_host.go:64-67 | And such entries are accepted |
| Authz.PermMatchIff | internal/middleware/authz.go:20-30 | A grant matches exactly the same string, everything if it is `*:*`, and otherwise, half by half at the first colon, what is equal or starred |
| Authz.PermissionAllowedIff | internal/middleware/authz.go:8-17 | A set of grants allows exactly what asks for nothing or what one of them grants |
| Authz.PermMatchTransitive | internal/middleware/authz.go:20-30 | Matching is transitive, wildcards and colon-free strings included |
| Authz.PermMatchAntisymmetric | internal/middleware/authz.go:20-30 | And antisymmetric |
| Authz.GrantRedundantIff | internal/middleware/authz.go:8-17 | A grant changes no decision, for any required permission, exactly when the set already satisfies it |
| Strings.TrimSpaceIff | internal/auth/domain.go:65 | Trimming gives the core between outer white space and nothing else |
| Strings.TrimIff | internal/dispatcher/dispatcher.go:270-271 | Likewise with slashes |
| Strings.LessIff | internal/dispatcher/nav.go:121-130 | String order is decided at the first differing character |
| Strings.JoinSplit | internal/dispatcher/dispatcher.go:270-271 | Splitting on a separator is undone by joining |
| Strings.SplitJoin | internal/dispatcher/dispatcher.go:270-271 | Joining separator-free parts is undone by splitting |

## Left out

- Proxying, WebSocket copying, TLS, tracing, metrics, logging, CORS, cookies, login, the dashboard and its pages: input and output with no state to keep.
- HTTP and JSON: manifests, Identity's replies and health probes are parameters with any value; malformed bodies are refused before anything modelled happens.
- SHA-256, HMAC and UUIDs: the signer's hash is an arbitrary function, a plugin ID's tag any eight characters. No lemma needs hashes to be free of collisions; only the bounds per plugin ID assume that an ID comes up once, and the bounds per limiter do without.
- Floating-point rounding and clock jumps: reals and a nondecreasing clock stand for `float64` and `time.Time`; a time, a rate or a duration is any real unless a lemma says otherwise.
- URL parsing: `url.Parse` is an arbitrary predicate of which `register` needs one fact, that a base URL it refuses it also refuses with the manifest's path appended, so that no manifest is pulled from it.
- Interleavings inside one control-plane handler: a handler is one step, as two concurrent registrations of one name are not serialised by the code and could leave both.
- `MaintenanceFor` is one step, though it reads and clears in two lock sections; Retry-After is computed at the instant of the check.
- `match` hands out a copy of the entry, not a pointer into the slice that a later removal overwrites in place.
- The limiter sweep may visit any tenant limiter at any time, one step each, rather than all registered ones on a ticker.
- Dispatch is a state machine over immutable states, not a method: its lock sections are what interleaves. The objects it works on are proved as classes.
- PipelineRates.TenantRateBound: needs a sweep that is harmless for the limits; TokenBucketBound.BoundedIff shows that some limiter run breaks the bound otherwise.
- PipelineRates.PluginRateBound: takes the refill rate as nonnegative, as do the other rate bounds; a configured negative rate would drain idle buckets and is not modelled further.
- Nil entries in the plugin list of `buildNav`: the registry never lists one.
- Strings are characters below 256 in tokens and ASCII for letter case and white space elsewhere: no Unicode folding.
- The choice among live plugins that declare one custom-domain surface, and the resolver's availability: a parameter of the second rewrite. `requireHostTenant` is not part of this model.
- The OpenAPI injector, `TenantSchemaFor`, `encodeNav`, `StatusClass`, config defaults and merging: one-line computations; limits come in as parameters.
- The registry's display fields (status text, version) and dead reads such as `IsOpen` and `StateMetric`.

# fold: verified models of the gateway's engines

fold is a gateway in front of MCP servers. Around its HTTP plumbing sit a number of small
engines that have to be right for every input and every interleaving: who may call what, how
often, from which cache, with which token, under which tenant, and what becomes of the audit
trail. This project models those engines in Dafny and proves what they promise.

`dafny verify dfyconfig.toml` checks everything.

| file | engine |
|---|---|
| `CacheKeys.dfy`, `ListCache.dfy`, `ListResults.dfy` | the shared list cache: generation keys in Redis, any number of concurrent readers and invalidations |
| `Budget.dfy`, `BudgetLaws.dfy` | calendar budgets: the in-process counter, the shared script, and a fleet with outages and lost replies |
| `TokenCache.dfy`, `TokenGate.dfy`, `TokenResults.dfy` | upstream tokens: cache, pruning, and the reference-counted per-key gates |
| `Subjects.dfy`, `Policy.dfy`, `PolicyLaws.dfy`, `PolicyArgs.dfy`, `Glob.dfy` | subject selectors, the policy engine, its laws, argument constraints, and name patterns |
| `Tenants.dfy` | the tenant index against a plain scan |
| `Breaker.dfy`, `RateLimit.dfy`, `BoundedMap.dfy` | circuit breaker, two-bucket limiter, generational map and the single-use recorder |
| `KubeDiscovery.dfy` | identities derived from Kubernetes Services |
| `CappedBody.dfy`, `Paginate.dfy` | the response size cap and list cursors |
| `AuditSink.dfy`, `AuditHistory.dfy`, `Delivery.dfy`, `RotatingFile.dfy` | audit delivery, retry timing, dead letters, log rotation |
| `Subscriptions.dfy` | resource subscriptions and their per-session counts |
| `Ordering.dfy`, `Sequences.dfy`, `Wrappers.dfy` | string order and sorting; sequence facts; an option type |

How things are represented:

- Code that changes fields is a class whose methods are tied to functions over values; runs are
  then sequences of calls over those values. A ghost field of a class records its history.
- Concurrent protocols (list cache, token gates, fleet budget, audit sink) are step systems: a
  run is any sequence of enabled actions from the initial state, with a phase per caller.
  Each single Redis command or locked section is one action, and a Redis command may fail.
- Time is an integer that each call reads once; a budget Add that falls back reads it again, as the
  source does. Integers are unbounded. The limiter's weighting is
  exact: both sides of its comparison are multiplied by the window length.
- Digests and the cursor codec are functions with the assumed properties named in the contract
  (collision-free, decoding inverts encoding). Maps that Go iterates in random order are walked
  in an arbitrary order.

Where the code and its documentation differ, the model follows the code. Each difference has an
input that shows it and the exact condition under which code and documentation agree:

- `internal/ratelimit/ratelimit.go:9` says requests are allowed per rolling minute. Two buckets
  admit up to 2·rpm − 1 in such an interval (`RateLimit.RollingWindowBoundIsTight`); the claim
  holds exactly when rpm is 1 (`RateLimit.RollingClaimExact`).
- `internal/bounded/map.go:24-25` bounds residency by twice the maximum. Promotion inserts into a
  full generation without rotating, so residency is unbounded (`BoundedMap.ResidencyIsUnbounded`);
  a run stays within twice the maximum exactly when no call of it overfills
  (`BoundedMap.ResidencyBoundExact`). The bound per generation of
  `internal/bounded/map.go:43-46` fails too, exactly when a lookup promotes into a full
  generation (`BoundedMap.PerGenerationBoundExact`).
- `policy/policy.go:37-47` says a scope is named only when scopes were the sole obstacle. The
  report ignores argument and annotation clauses (`PolicyLaws.NamedScopeMayNotHelp`); when the
  named scopes do help is stated exactly by `PolicyLaws.NamedScopesRemedy`.
- `policy/policy.go:1-4` says that a matching rule allows and otherwise the default applies. Any
  deny wins (`PolicyLaws.DenyBehindAllowWins`); the two readings agree exactly when no deny stands
  against what they would allow (`PolicyLaws.FirstMatchExact`).
- `policy/policy.go:652-654` says a claim matches when it equals the required value or contains
  it. An array claim is only searched (`Subjects.EqualArrayIsRefused`); the two agree exactly when
  the claim is not an array equal to the required value (`Subjects.ArrayClaimExact`).
- `internal/state/budget.go:68-70` speaks of one extra period of slack for skewed clocks. The code
  adds one hour, so clocks further than that apart break the limit (`Budget.SkewedPairExceeds`);
  how far they may differ is exact (`Budget.ExpirySlackExact`, `Budget.ClockBoundExact`).
- `internal/state/budget.go:100-102` says a rejected Add records nothing. An Add whose script ran
  and whose reply was lost may be charged and then refused by the fallback
  (`Budget.LostReplyChargesARefusal`); `Budget.RefusalChargesNothing` is the exact statement.
- `policy/policy.go:3-4` says callers never see tools they cannot call. Argument constraints are
  not judged at list time, so a tool can be listed that no arguments make callable
  (`PolicyArgs.ListedNeverCallable`); `PolicyArgs.CallableExactly` says when a listed tool is
  callable with some.
- `auth/upstream.go:166-170` promises no burst of token requests. A token that lives at most a minute
  has run out when it is kept, and each queued caller then sends its own request
  (`TokenGate.ShortTokenIsRefetched`); `TokenGate.SecondRequestHasCause` names every cause of a
  second request.
- `internal/state/redis.go:391-397`: a data key coincides with a generation key exactly when its
  cache family is named "gen" or starts with "gen:" and the key is the family's bare name
  (`CacheKeys.GenKeyClashExactly`). The protocol model keeps the two apart, as fold's own
  families do.

## Model

| member | source | states |
|---|---|---|
| ListCache.FreshAfterInvalidate | internal/state/redis.go:399-431 | for every interleaving of any number of calls, with reads and writes failing anywhere, a GetOrFill that starts after a successful Invalidate of its family never returns bytes of a fill that began before it, unless the generation key was evicted before the call read it |
| ListCache.EvictedGenerationServesStale | internal/state/redis.go:399-431 | such an eviction does matter: a run with one serves stale bytes |
| ListCache.RunKeepsInv | internal/state/redis.go:399-431 | what every step keeps, evictions or not: everything stored or held under a generation was filled after some call had read that generation, and a result is the call's own fill or was found under the generation it read |
| ListCache.CounterIsGeneration | internal/state/redis.go:427-431 | until it is evicted, the counter is the number of successful invalidations |
| ListResults.FillIsReturned | internal/state/redis.go:417-424 | over every run: a call whose fill succeeded returns what was filled, whether or not it was cacheable or could be stored |
| ListResults.ResultIsAccountedFor | internal/state/redis.go:399-425 | over every run: a result is bytes that some call filled for the same key, and a call returns nothing only after its own fill failed |
| ListResults.EntryIsLastStored | internal/state/redis.go:407-424 | over every run: an entry is found under a generation and key exactly when a call that had filled it for that key stored it under that generation and it has not expired since, and it is the last one stored |
| ListResults.RedisCache.GetOrFill | internal/state/redis.go:399-425 | result and stored data for every outcome of its commands and of the fill, and that a call alone is a run of the step system |
| ListResults.RedisCache.Invalidate | internal/state/redis.go:427-431 | the family's counter goes up by one unless the command fails, and that this is a step of the system |
| CacheKeys.ComputeFamily | internal/state/redis.go:380-389 | the scan returns the segment before the first slash |
| CacheKeys.FamilyIsItsOwn | internal/state/redis.go:380-389 | invalidating by a family's name and by any of its keys is the same |
| CacheKeys.DataKeysDistinct | internal/state/redis.go:395-397 | within a scope, different generations or keys never share a Redis data key |
| CacheKeys.GenKeyClashExactly | internal/state/redis.go:391-397 | exactly which data keys coincide with some family's generation key |
| Budget.SharedCounterIsExact | internal/state/redis.go:445-495 | for every interleaving of Adds, outages and lost replies included and clocks within half an hour, the shared counter of a window equals the units it admitted plus those whose reply was lost, and never exceeds the limit |
| Budget.FleetBound | internal/state/redis.go:479-520 | whatever Redis does, and in whatever order an instance's Adds reach its own counter, the Adds of N instances that report the end of one window admit at most (N+1)·limit units |
| Budget.FleetBoundIsReached | internal/state/redis.go:479-520 | (N+1)·limit is reached, for every period, limit and number of instances |
| Budget.FleetBoundByClock | internal/state/redis.go:479-520 | the same bound for the Adds whose deciding clock readings fall in one window, as long as none decided alone reaches its counter after that moved on to a later window |
| Budget.OrderedReadsSuffice | internal/state/budget.go:156-160 | that is so whenever an instance's Adds take the lock in the order of their clock readings |
| Budget.LateLockExceedsClockBound | internal/state/budget.go:156-160 | the clock is read before the lock is taken: for every period, limit and number of instances, one tick of lag lets the readings of one window admit (N+2)·limit |
| Budget.LagExact | internal/state/budget.go:156-160 | counted by clock readings, every run stays within (N+1)·limit exactly when no later Add of an instance has an earlier reading |
| Budget.HealthyFleetBound | internal/state/redis.go:445-495 | while Redis answers, the whole fleet stays within one limit |
| BudgetLaws.AnsweredAddExact | internal/state/redis.go:445-495 | for every interleaving, outages and lost replies included and clocks within half an hour: an Add that Redis answers is admitted exactly when its units fit into what the scripts before it left of its window, first come, first served, and it reports the end of that window |
| BudgetLaws.HealthyAddExact | internal/state/redis.go:445-495 | while Redis answers, an Add is admitted exactly when the units admitted in its window so far leave room for it |
| BudgetLaws.FallbackAddExact | internal/state/redis.go:486-488 | whatever Redis and the clocks do, an Add decided alone is admitted exactly when its units fit into what the instance's own Adds left since its latest reset, first come, first served, and it reports that reset |
| BudgetLaws.RedisBudget.RunScript | internal/state/redis.go:445-457 | the script's answer and the counters after it |
| BudgetLaws.RedisBudget.Add | internal/state/redis.go:479-495 | verdict and state of an instance for every outcome of the script, as the fleet's step |
| Budget.ClockBoundExact | internal/state/redis.go:445-495 | while Redis answers, every run stays within the limit for clocks up to a given skew exactly when twice the skew is at most an hour less a second, for every period and limit |
| Budget.SkewedPairExceeds | internal/state/redis.go:445-495 | with clocks further apart, two Adds of the whole limit are both admitted in one window |
| Budget.RefusalChargesNothing | internal/state/budget.go:98-102 | over every Add and every outcome: a refused Add leaves the units charged to its window unchanged exactly unless its script charged some and only the reply was lost; no other window and no instance is charged |
| Budget.LostReplyChargesARefusal | internal/state/redis.go:484-488 | for every period and limit, a run in which a refused Add is charged to the shared counter |
| Budget.ExpiryOutlivesWindow | internal/state/budget.go:68-73 | the expiry given to a counter is past every instant, on any clock within the skew, at which its window is addressed |
| Budget.ExpirySlackExact | internal/state/budget.go:68-73 | that holds of every counter exactly when twice the skew is at most an hour less a second |
| Budget.WindowIs | internal/state/budget.go:38-66 | hour, day and month windows partition time: an instant is in window i exactly when it lies between the starts of i and i+1 |
| Budget.WindowMonotone | internal/state/budget.go:52-66 | two instants share a window exactly when the later one comes before the reset reported for the earlier |
| BudgetLaws.MonthStartIs | internal/state/budget.go:52-66 | the first day of every month of every year is the Gregorian one, leap years included |
| Budget.MemBudget.constructor | internal/state/budget.go:146 | a new counter has consumed nothing |
| Budget.NewMemBudget | internal/state/budget.go:139-147 | no counter, that is an unlimited budget, for a limit that is not positive, and a month for an unknown period |
| Budget.AddTo | internal/state/budget.go:110-116 | an unlimited budget admits everything with a zero limit; a counter as its Add |
| Budget.MemBudget.Roll | internal/state/budget.go:149-154 | the counter restarts exactly when its window has ended |
| Budget.MemBudget.Add | internal/state/budget.go:156-166 | admits exactly what still fits; a refused Add leaves the consumption of the window as it was |
| Budget.MemBudget.Used | internal/state/budget.go:168-179 | reports the rolled counter and whether anything is left |
| TokenGate.OneRequestPerKey | auth/upstream.go:166-217 | for every interleaving at most one token request per key is in flight |
| TokenGate.SecondRequestHasCause | auth/upstream.go:166-217 | for every interleaving, between two requests for one key the second caller looked into the cache after the first request had ended, and that had failed, or its token had run out by then or was pruned or replaced |
| TokenGate.ShortTokenIsRefetched | auth/upstream.go:211-215 | a token with a lifetime of at most a minute does not serve even the caller queued behind it |
| TokenGate.GateLivesWhileJoined | auth/upstream.go:176-196 | a gate is in the map exactly while some caller has joined and not left it, and all joined callers of a key share it |
| TokenGate.QuiescentHasNoGates | auth/upstream.go:185-217 | once every call has returned no gate and no lock is left, also when fetches failed |
| TokenGate.TokensStayWithTheirKey | auth/upstream.go:171-226 | no caller is handed a token fetched for another key |
| TokenResults.FetchIsReturned | auth/upstream.go:204-216 | over every run: a call whose token request succeeded returns the value that brought |
| TokenResults.ResultIsAccountedFor | auth/upstream.go:171-217 | over every run: a returned call was handed a token found in the cache under its key, unexpired when it began or looked again, or the one its own request brought, expiring a minute before its lifetime ends; and nothing only after its own request had failed |
| TokenResults.CachedFetch | auth/upstream.go:171-217 | value, cache and gates after a call with nobody else in between, for every outcome of form and endpoint, and that such a call is a run of the gates |
| TokenResults.FetchBehindGate | auth/upstream.go:176-216 | the same for the part after the first look |
| TokenGate.SomeCallCanMove | auth/upstream.go:185-217 | no deadlock: while a call has not returned, some call can take a step |
| TokenGate.RunKeepsInv | auth/upstream.go:171-217 | what every step keeps: gate counts are numbers of members, keys have different gates, each held lock is held by the caller it names |
| TokenCache.Credentials.Lookup | auth/upstream.go:219-226 | finds exactly the unexpired token of the key |
| TokenCache.Credentials.Join | auth/upstream.go:176-183 | the new fields after joining, and which gate was joined |
| TokenCache.Credentials.Leave | auth/upstream.go:189-194 | the new fields after leaving; the last one out removes the gate |
| TokenCache.Credentials.PruneLocked | auth/upstream.go:228-248 | nothing changes within the cap; past it expired tokens go, and live ones only as far as they do not fit |
| TokenCache.Credentials.Keep | auth/upstream.go:211-215 | the fetched token is kept until a minute before its lifetime is over, and the cache pruned |
| Glob.Match | policy/policy.go:710-726 | greedy leftmost matching succeeds exactly when the name is the literal parts in order with arbitrary, possibly empty, strings between them |
| Glob.LeftmostIsEnough | policy/policy.go:718-724 | placing a part at its leftmost occurrence loses no match |
| Glob.SplitKeepsMeaning | policy/policy.go:706-708 | splitting a pattern on the star keeps what the pattern denotes character by character |
| Glob.GlobMatch | policy/policy.go:738-742 | compile and match decide exactly what the pattern denotes |
| Subjects.ClaimEqual | policy/policy.go:674-697 | the scalar shortcuts agree with equality of decoded values |
| Subjects.ClaimsMatch | policy/policy.go:652-673 | true exactly when every required claim holds, whatever order the map is walked in |
| Subjects.ArrayClaimExact | policy/policy.go:652-673 | the matcher agrees with its description, equal or contained, exactly when the claim is not an array equal to the required value |
| Subjects.EqualArrayIsRefused | policy/policy.go:652-673 | a claim that is the required array is not matched |
| Subjects.MissingScopes | policy/policy.go:632-646 | the required scopes not held, in the order required |
| Subjects.LackingMembers | policy/policy.go:632-646 | those are exactly the scopes that are required and not held |
| Subjects.MatchWhy | policy/policy.go:582-630 | true exactly when the selector covers the principal; otherwise the scopes that were the only obstacle |
| Subjects.MatchSubjects | policy/policy.go:558-570 | true exactly when the selector covers the principal |
| Subjects.UnmetIsExactRemedy | policy/policy.go:572-630 | further scopes make an uncovered caller covered exactly when some scope is reported unmet and all of them are among the further ones |
| Subjects.MoreScopesKeepCover | policy/policy.go:582-630 | further scopes never lose a selector |
| Policy.CompileArgs | policy/policy.go:225-234 | the constraints of the map, each once, sorted by path whatever order the map yields |
| Policy.CompileClause | policy/policy.go:214-238 | a compiled clause has the server, methods, split patterns, sorted constraints and kind of its source |
| Policy.New | policy/policy.go:171-211 | the engine holds the compiled rules in order, its four flags say exactly what the rules contain, and both postures are as configured |
| Policy.LookupPath | policy/policy.go:279-293 | the value at a path of nested objects, or none |
| Policy.ArgsSatisfied | policy/policy.go:250-274 | true exactly when all constraints hold, otherwise the path of the first that does not |
| Policy.Matches | policy/policy.go:319-334 | true exactly when some clause targets the call |
| Policy.MatchesArgs | policy/policy.go:336-378 | true exactly when some clause applies in the given mode; otherwise the first path refused among clauses that fit but for arguments |
| Policy.ScopeShortfall.Add | policy/policy.go:514-529 | what was added, without repeats and in order of first mention |
| Policy.DecideFast | policy/policy.go:433-467 | the fast path yields the decision of the general specification |
| Policy.DecideSlow | policy/policy.go:468-504 | the argument-aware path meets the same specification, so on documents where both apply they agree on the whole decision |
| Policy.Decide | policy/policy.go:422-504 | verdict, rule id, list cap, failed argument and missing scopes of every decision |
| Policy.DecideServerInitiated | policy/policy.go:533-550 | an upstream's own requests are allowed unless the document defaults them to deny, and then as the rules decide on server and method |
| PolicyLaws.VerdictIs | policy/policy.go:422-504 | allowed exactly when disabled, or no rule's deny hits and some rule's allow hits or the default allows |
| PolicyLaws.FirstMatchExact | policy/policy.go:1-4 | the verdict agrees with the package's description exactly when no deny stands against what that would allow |
| PolicyLaws.DenyBehindAllowWins | policy/policy.go:426-431 | a document whose allow rule comes first and whose deny refuses every query |
| PolicyLaws.ReorderKeepsVerdict | policy/policy.go:426-431 | any reordering of the rules gives the same verdict and names the same scopes |
| PolicyLaws.CallableIsVisible | policy/policy.go:296-312 | a call allowed with any arguments is visible when listed under the same annotations |
| PolicyArgs.CallableExactly | policy/policy.go:296-312 | where no deny in play depends on arguments, a tool is callable with some arguments exactly when it is listed and, unless allowed by default, a clause that fits has constraints that can be met together |
| PolicyArgs.SatisfiableExactly | policy/policy.go:250-293 | constraints can be met by some arguments exactly when, wherever one path continues another, the value at the shorter holds the other's value |
| PolicyArgs.ListedNeverCallable | policy/policy.go:304-312 | a document that shows everyone a tool that no arguments make callable |
| PolicyLaws.FailedArgIsReal | policy/policy.go:28-32 | an argument is named only when no rule decided, and only if a rule covering the caller has a clause that fits but for arguments, that one among the failing |
| PolicyLaws.FailedArgExactly | policy/policy.go:475-504 | when no rule decided, one is named exactly when such a clause's first failing constraint has a non-empty path |
| PolicyLaws.MissingScopesAre | policy/policy.go:506-531 | the scopes named are, each once, exactly those lacked under rules that target the call, when no rule decided |
| PolicyLaws.NamedScopesAreLacked | policy/policy.go:40-47 | only scopes the caller lacks are named |
| PolicyLaws.AddedScopesGrant | policy/policy.go:448-466 | for any further scopes, an ungranted call is granted exactly when they hold all a targeting rule lacks and that rule applies to the call |
| PolicyLaws.AddedScopesDeny | policy/policy.go:432-446 | for any further scopes, a deny stands against the call exactly when one did before or one that applies lacked nothing but scopes among them |
| PolicyLaws.NamedScopesRemedy | policy/policy.go:34-47 | obtaining the named scopes lifts the refusal exactly when some rule counted into them applies to arguments and annotations too, and no rule with a deny that applies lacks nothing but some of them |
| PolicyLaws.NamedScopesSuffice | policy/policy.go:448-466 | without deny, argument and annotation clauses, the named scopes lift the refusal exactly when any are named |
| PolicyLaws.NoScopesWouldHelp | policy/policy.go:448-466 | without those clauses, a refusal that names none is lifted by no scopes |
| PolicyLaws.NamedScopeMayNotHelp | policy/policy.go:479-487 | a document and a call for which the scope named would not help, because of an argument constraint |
| PolicyLaws.EngineMeansDocument | policy/policy.go:171-238 | compilation, flags and both paths together decide what the document says, with patterns read as written |
| PolicyLaws.DenyingRuleIsNamed | policy/policy.go:422-446 | a refusal by a deny names the first rule of the document that denies |
| PolicyLaws.GrantingRuleIsNamed | policy/policy.go:448-466 | a grant by a rule names the first rule of the document that allows, with its cap on list items |
| PolicyLaws.DefaultNamesNone | policy/policy.go:466-504 | where no rule decides, the configured default does, and no rule is named |
| Tenants.TenantSet.Index | gateway/tenant.go:137-170 | afterwards every tenant is filed where resolution looks for its kind of selector, and only declared tenants are filed |
| Tenants.IndexableClaim | gateway/tenant.go:172-193 | found exactly for selectors that are one claim equal to one scalar and nothing else |
| Tenants.BuildTenants | gateway/tenant.go:79-101 | the set holds the declared tenants, each filed |
| Tenants.Consider | gateway/tenant.go:388-405 | a tenant is recorded once however often it is reached |
| Tenants.ConsiderTenants | gateway/tenant.go:378-387 | every matching candidate is recorded, nothing else, nothing twice |
| Tenants.ConsiderClaims | gateway/tenant.go:333-347 | every match under a claim value the principal presents is recorded, in whatever order the index is walked |
| Tenants.MatchIsReached | gateway/tenant.go:139-235 | a filed tenant that matches is found by the stage its selector belongs to |
| Tenants.TenantSet.Lookup | gateway/tenant.go:331-361 | the stages together record exactly the matching tenants |
| Tenants.TenantSet.Resolve | gateway/tenant.go:308-376 | indexed resolution equals matching every declared tenant in turn |
| Tenants.VerdictIgnoresOrder | gateway/tenant.go:362-375 | the answer depends only on which tenants match, not on the order they were reached in |
| Tenants.ScanMeans | gateway/tenant.go:308-376 | no tenant exactly when none matches, and a tenant exactly when it alone does |
| Tenants.RefusalNamesAll | gateway/tenant.go:362-374 | a refusal names, sorted, the ids of exactly the matching tenants, at least two |
| Breaker.New | internal/breaker/breaker.go:36-48 | no breaker for a threshold that is not positive, otherwise an empty history |
| Breaker.Allow | internal/breaker/breaker.go:50-76 | admits exactly when the trailing failures are below the threshold, or the cool-down since the last failure is over and nothing was admitted since the last outcome |
| Breaker.Record | internal/breaker/breaker.go:78-97 | the outcome joins the history and the fields still agree with it; half-open always means a probe is out |
| Breaker.ReportedState | internal/breaker/breaker.go:99-110 | closed exactly when the trailing failures are below the threshold; half-open exactly when tripped and a probe is out or could go |
| Breaker.OneProbeAtATime | internal/breaker/breaker.go:50-76 | between two admissions of a tripped breaker an outcome was recorded |
| Breaker.FailedProbeReopens | internal/breaker/breaker.go:78-97 | after a failed probe nothing is admitted before the half-open interval is over |
| RateLimit.New | internal/ratelimit/ratelimit.go:22-29 | no limiter for a rate that is not positive |
| RateLimit.Allow | internal/ratelimit/ratelimit.go:31-61 | the rolling loop computes the buckets as of now; admits exactly what the weighting lets fit; the advised wait ends the current window |
| RateLimit.AdvisedWaitIsEnough | internal/ratelimit/ratelimit.go:55-58 | with nobody else calling, waiting as advised is enough exactly when the window of the refusal has admitted fewer than rpm |
| RateLimit.RollingWindowBound | internal/ratelimit/ratelimit.go:33-61 | over every run, strictly fewer than 2·rpm admissions in every interval of one window length |
| RateLimit.FixedWindowBound | internal/ratelimit/ratelimit.go:33-61 | at most rpm admissions in each fixed window, and the buckets count exactly those of the current and the preceding window |
| RateLimit.AdmissionIsWeighted | internal/ratelimit/ratelimit.go:47-60 | every admission satisfies prev·(1−elapsed)+count ≤ rpm, itself included, where prev and count are the admissions of the preceding and the current fixed window of the run |
| RateLimit.RollingWindowBoundIsTight | internal/ratelimit/ratelimit.go:33-61 | 2·rpm − 1 admissions in one window length are reachable |
| RateLimit.RollingClaimExact | internal/ratelimit/ratelimit.go:9 | the documented rolling claim holds exactly when rpm is 1 |
| BoundedMap.Map.Load | internal/bounded/map.go:49-70 | returns the live resident value and promotes it; an expired entry goes |
| BoundedMap.Map.Store | internal/bounded/map.go:72-78 | the state after storing |
| BoundedMap.Map.StoreLocked | internal/bounded/map.go:108-118 | the state after inserting, rotating when the live generation is full |
| BoundedMap.Map.LoadOrStore | internal/bounded/map.go:80-98 | returns what was there, or stores |
| BoundedMap.Map.Delete | internal/bounded/map.go:100-106 | the key is in neither generation |
| BoundedMap.HitIsLastStored | internal/bounded/map.go:51-118 | over every run the generations share no key, and a hit is the value last stored, not deleted and not expired |
| BoundedMap.EvictionTakesMoreThanLimit | internal/bounded/map.go:15-25 | a live key vanishes only after more than max distinct other keys were inserted or promoted since its last touch |
| BoundedMap.MemOnce.TryOnce | internal/state/state.go:180-188 | accepts exactly when no unexpired record of the key is resident |
| BoundedMap.SecondAcceptanceTakesMoreThanLimit | internal/state/state.go:162-188 | a key is accepted twice within its lifetime only after more than max other keys |
| BoundedMap.PerGenerationBoundExact | internal/bounded/map.go:43-46 | each generation stays within the limit throughout a run exactly when no lookup promotes into a full one |
| BoundedMap.ResidencyBoundExact | internal/bounded/map.go:24-25 | at most twice the limit is resident throughout a run exactly when no call overfills: inserts with a rotation that keeps twice the limit, or inserts a new key into a full total without one |
| BoundedMap.WritesAloneStayWithinTwiceLimit | internal/bounded/map.go:24-25 | runs of stores and deletes keep at most twice the limit |
| BoundedMap.ResidencyIsUnbounded | internal/bounded/map.go:24-25 | with lookups, any number of entries can be resident |
| BoundedMap.PromotionConservesTotal | internal/bounded/map.go:62-66 | a promotion changes no total |
| KubeDiscovery.IsEscaped | internal/kubediscovery/kubediscovery.go:354-375 | accepts exactly the outputs of escapeHyphens |
| KubeDiscovery.NamespacesCollideExactly | internal/kubediscovery/kubediscovery.go:350-384 | two Kubernetes namespaces can claim a common identity exactly when they are equal up to trailing hyphens |
| KubeDiscovery.TeamsNeverContest | internal/kubediscovery/kubediscovery.go:273-312 | with prefixing, Services of different namespaces (not ending in a hyphen, as section 2.1 of RFC 1123 demands) never share an id or an MCP namespace |
| KubeDiscovery.DerivedIdentityIsClaimable | internal/kubediscovery/kubediscovery.go:273-312 | the identity derived for a Service is one its namespace may claim |
| KubeDiscovery.DerivedIdentityIsOneToOne | internal/kubediscovery/kubediscovery.go:350-384 | for namespaces not ending in a hyphen, equal derived identities come from equal namespaces and names |
| KubeDiscovery.MapServices | internal/kubediscovery/kubediscovery.go:218-271 | the counting loops publish exactly the uncontested candidates, sorted by id |
| KubeDiscovery.MappedExactly | internal/kubediscovery/kubediscovery.go:230-315 | exactly which entry a Service becomes: configured identities before annotated before derived ones, the owner never self-asserted, both identities claimable with prefixing, neither reserved |
| KubeDiscovery.MapOne | internal/kubediscovery/kubediscovery.go:230-315 | the branches of the mapping and of the checks of one entry |
| KubeDiscovery.ClaimAllowed | internal/kubediscovery/kubediscovery.go:299-312 | accepts exactly the prefix of the namespace followed by an escaped name |
| KubeDiscovery.DocumentIgnoresOrder | internal/kubediscovery/kubediscovery.go:218-271 | every permutation of the Services gives the same list |
| KubeDiscovery.DocumentIsUnambiguous | internal/kubediscovery/kubediscovery.go:218-271 | published ids and MCP namespaces are unique, and a candidate is published exactly when nobody contests it |
| CappedBody.SizeCappedBody.CountEvents | gateway/upstream.go:594-620 | however the stream is cut, the count is the bytes after the last frame terminator of the whole stream so far |
| CappedBody.SizeCappedBody.Read | gateway/upstream.go:569-592 | the caller gets the chunk until the cap has tripped and nothing, with an error, from then on; the wrapped body is closed and the trip reported once, exactly then |
| CappedBody.LastEndIsGreatest | gateway/upstream.go:606-611 | the recursion for the last terminator finds the greatest position where one ends |
| CappedBody.LastEndAcrossCut | gateway/upstream.go:606-618 | where the last terminator is when a chunk is appended: in the chunk, across the cut, or where it was |
| CappedBody.HandedIsPrefixBeforeTrip | gateway/upstream.go:584-591 | the caller holds everything until the cap trips and afterwards what it held |
| CappedBody.WholeBodyBound | gateway/upstream.go:569-592 | in whole-body mode at most limit bytes are handed over in any run, and the cap trips exactly when more were sent |
| CappedBody.EventCaughtExactly | gateway/upstream.go:569-620 | over every way of cutting the stream, an event trips the cap exactly when some read that delivers bytes ends inside it with more than limit of its bytes in |
| CappedBody.OversizedEventInOneReadPasses | gateway/upstream.go:577-611 | a single oversized event that arrives in one read with its terminator is not caught |
| Paginate.ComputeSnapshotGen | gateway/paginate.go:47-61 | the fingerprint is the digest of the kind and every name |
| Paginate.FeedInjective | gateway/paginate.go:47-61 | for names free of NUL the fingerprinted stream determines the kind and all names in order |
| Paginate.WalkReproducesSnapshot | gateway/paginate.go:84-118 | following cursors meets no refusal, keeps every page within the size, and ends after at most one page per item with exactly the snapshot |
| Paginate.CursorAcceptedExactly | gateway/paginate.go:84-118 | a minted cursor is accepted exactly for the same kind, caller and names in the same order, for collision-free digests |
| Paginate.PagedExactly | gateway/paginate.go:84-118 | of all strings a client may send, exactly the empty one and the cursors for this list, snapshot and caller with an offset inside it get a page, which holds the items from there on, as many as fit, and a cursor exactly when items are left |
| Paginate.UnpagedExactly | gateway/paginate.go:84-90 | without a page size the list is one page and every cursor is refused |
| AuditSink.EventsAreConserved | audit/audit.go:532-697 | in every run, event by event: emitted = delivered + dead-lettered + dropped + buffered + in the worker's hands + about to be sent |
| AuditSink.BatchesFollowAcceptance | audit/audit.go:574-697 | batches of 1 to 100 events concatenate to the accepted events in order, each is posted at most maxAttempts times, and an exited worker holds nothing |
| AuditHistory.RefusalsHaveCause | audit/audit.go:532-545 | in every run: an event is refused exactly when its Emit comes after the sink was closed or finds 1024 events waiting; every other one sent is accepted, in order |
| AuditHistory.BatchesAreRetriedOut | audit/audit.go:663-697 | in every run: a batch the worker is done with failed to encode, or was delivered, or had a permanent last answer, or used up all attempts, or was in a backoff that shutdown interrupted; no post follows an accepted or permanently refused one; a batch cut after the shutdown signal is posted at most once |
| AuditHistory.DeliveredWereAccepted | audit/audit.go:670-682 | in every run: the events reported delivered are those of the batches whose last post was accepted |
| AuditHistory.DeadLettersWereWritten | audit/audit.go:628-639 | in every run: as many events are reported dead-lettered as lines were written, none without a dead-letter file |
| AuditHistory.BatchesAreFull | audit/audit.go:588-600 | in every run: a batch is cut only at 100 events or when nothing waits |
| AuditHistory.WorkerLeavesOnSignal | audit/audit.go:574-631 | in every run: the worker leaves its loop only after the shutdown signal, and leaves events unposted only once the drain window has expired |
| AuditHistory.LeavingIsFinal | audit/audit.go:574-585 | in every run: a worker that has left its loop never returns to it |
| AuditHistory.DrainEndsOnTime | audit/audit.go:602-626 | in every run: the drain takes nothing once its window has expired, and ends before that only when nothing waits |
| AuditHistory.WorkerIsNeverStuck | audit/audit.go:574-697 | in every reachable state the worker can go on, unless it waits with nothing to take and no signal, or has exited |
| AuditSink.ShutdownAccountsForEverything | audit/audit.go:547-639 | closed with no Emit under way, the worker exits only when every emitted event was delivered, dead-lettered or counted as dropped |
| AuditSink.AccountedForExactly | audit/audit.go:547-639 | once the worker has exited, every emitted event is accounted for exactly when the buffer is empty and no Emit that saw the sink open is about to send |
| AuditSink.LateSendIsStranded | audit/audit.go:532-545 | a run in which an Emit sends after the worker's last look and its event stays in the buffer |
| AuditSink.RunKeepsInv | audit/audit.go:532-697 | what every step of emitters, closer and worker keeps |
| Delivery.ResolveRetry | audit/delivery.go:35-57 | at least one attempt, a positive first delay within the cap, and every value that was set kept |
| Delivery.Backoff | audit/delivery.go:59-84 | between half and all of the initial delay doubled per earlier attempt and capped, never above the cap |
| Delivery.DeadLetter.Write | audit/delivery.go:116-132 | the log and both counts after a batch, with events that cannot be marshalled and writes that fail |
| Delivery.BatchIsAccountedFor | audit/delivery.go:116-132 | the log takes the marshalled lines in batch order, and every event is reported exactly once |
| Delivery.DeadLettersAreLines | audit/delivery.go:116-132 | the lines ever put into the log grow by exactly the dead letters reported |
| RotatingFile.RotatingFile.constructor | audit/file.go:37-53 | the limits used, with defaults for values that are not positive |
| RotatingFile.RotatingFile.Rotate | audit/file.go:97-120 | every numbered file moves up by one, the oldest goes, and the live one restarts |
| RotatingFile.RotatingFile.ShiftUp | audit/file.go:103-111 | the downward rename loop moves every file to the next number and drops the oldest |
| RotatingFile.RotatingFile.WriteLine | audit/file.go:80-95 | the line joins the log, rotating first when it would not fit, unless writing it fails; a closed file refuses |
| RotatingFile.RotatingFile.Reopen | audit/file.go:61-78 | a restart with the same limits goes on from the size on disk, so the log continues as if it had not been closed |
| RotatingFile.DiskIsSuffix | audit/file.go:81-120 | over every run of writes, failed ones among them, the files on disk oldest to newest are a contiguous suffix of all lines written, at most maxFiles are rotated, each within maxBytes or a single line |
| RotatingFile.DiskIsLastFiles | audit/file.go:97-120 | the live file and the numbered ones, listed oldest to newest, are the last maxFiles + 1 of all files ever started |
| RotatingFile.SegmentsHoldAllLines | audit/file.go:81-120 | rotation alone neither loses nor reorders a line |
| Subscriptions.RunKeepsConsistent | gateway/gateway.go:924-1080 | after every sequence of locked sections a session's count is the number of URIs it holds and within the cap, with no zero counts and no empty sets |
| Subscriptions.SessionNeverExceedsCap | gateway/gateway.go:997-1018 | no session ever holds more URIs than the cap |
| Subscriptions.HoldsExactly | gateway/gateway.go:924-1080 | over every run: who holds what after a subscribe, a failed one, an unsubscribe and a sweep, which takes everything from exactly the identified sessions that are gone |
| Subscriptions.UnsubscribeUndoesSubscribe | gateway/gateway.go:997-1080 | unsubscribing right after a subscribe that was not refused restores both maps |
| Subscriptions.CountsFollowSubscribers | gateway/gateway.go:1035-1055 | consistent counts are determined by who holds what |
| Subscriptions.Gateway.SubscribeSection | gateway/gateway.go:997-1018 | the new maps, when the limit refuses, and who is the first subscriber of a URI |
| Subscriptions.Gateway.DropSubscriber | gateway/gateway.go:1035-1055 | the new maps and whether the URI has no subscriber left |
| Subscriptions.Gateway.UnsubscribeSection | gateway/gateway.go:1057-1080 | the new maps and when the upstream subscription is to be released |
| Subscriptions.Gateway.ReapSubscribers | gateway/gateway.go:924-944 | every session that is gone loses all it held, and exactly the URIs left without holder are reported, each once |

## Left out

- HTTP handlers, sessions, the MCP wire, bridging, telemetry, metrics, the console and command-line programs: input and output around libraries that are not part of this model.
- Token verification, TLS and URL parsing: foreign cryptography and parsers.
- Configuration validation: long and settled branch by branch.
- The Redis limiter, breaker, single-use recorder and key-value store (internal/state/redis.go above line 370): their step systems are not modelled.
- The in-process list cache (internal/cache/cache.go): it makes no freshness promise for fills in flight.
- Budget.SharedCounterIsExact: for clocks within the slack that ClockBoundExact shows to be the largest possible; a counter that Redis loses before its expiry is not modelled.
- Budget.HealthyFleetBound: for the same clocks.
- Budget.FleetBound: for the same clocks; units per Add are natural numbers, as all callers pass them, and window keys are numbered windows instead of formatted dates.
- Budget.NewMemBudget: an unlimited budget is the absence of a counter; its Used, which always allows, is not modelled.
- PolicyArgs.CallableExactly: for calls against which no argument-constrained deny could stand; whether arguments can avoid such a deny and still meet an allow is not decided.
- ListCache.FreshAfterInvalidate: the generation and data keys are modelled apart from their spelling; that the spelling keeps data keys apart is proved separately in CacheKeys.DataKeysDistinct and CacheKeys.GenKeyClashExactly.
- RateLimit.Allow: floating-point rounding is abstracted away; the window length is a parameter, one minute in the source.
- RateLimit.RollingClaimExact: for windows of at least four clock ticks; the source's minute has far more.
- RotatingFile.RotatingFile.WriteLine: a write either succeeds or fails with nothing written; a partial write is not modelled.
- RotatingFile.RotatingFile.Rotate: closing, renaming and reopening succeed.
- RotatingFile.RotatingFile.constructor: for a path where nothing exists; a restart on existing files is Reopen, and a restart with other limits is not modelled.
- Policy.New: paths are split when looked up instead of once at construction.
- Policy.Decide: a source of arguments or annotations that is absent and one that yields nothing are one case, which the code treats alike.
- Tenants.BuildTenants: budgets, limiters and upstream visibility carried by a tenant are not modelled, only its id and selector.
- KubeDiscovery.MapServices: annotations and embedded JSON are given as already parsed fields; port, credential and entry checks are one predicate over the entry.
- Subscriptions.RunKeepsConsistent: the upstream subscribe and unsubscribe calls, which run outside the lock, are not modelled.
- AuditSink.EventsAreConserved: a panic in the worker and the retry report are not modelled; posting, encoding and the dead-letter write are steps with either outcome.
- AuditSink.ShutdownAccountsForEverything: an Emit that passed the closed check before Close can strand its event in the buffer, which LateSendIsStranded shows and AccountedForExactly makes exact.
- Delivery.DeadLetter.Write: the nil receiver, which writes nothing, is the sink's case without a dead-letter file.

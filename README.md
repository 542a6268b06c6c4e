# go-httpd server lifecycle, modelled in Dafny

This project models the sequential core of go-httpd's `server.go`. That file is the lifecycle coordinator that wraps `net/http` with these pieces:

- functional options that configure a `defaultServer`;
- a composite hook that fans TLS and listener callbacks out to several hooks;
- scheme filtering of the configured listeners;
- a fail-fast `Listen` and `Serve` over the primary and the admin listeners;
- an idempotent `Shutdown`;
- the fan-in of per-server stop reports that decides whether the shutdown callback runs;
- the interrupt handler that turns delivered signals into one shutdown request;
- the three listener accessors;
- the environment overrides used for the default listener settings.

Listener providers are values: a `ServerListener` with an id and a scheme. What their `Listener()` and `Serve()` calls return comes from two function parameters:

- `bind` gives the result of `Listener()`. Providers memoise `Listener()`, so one function describes every call.
- `serve` gives the result of `Serve`, as a function of the listener and the `ServerConfig` passed to it.

Running servers and bound sockets are opaque `Handle`s. The process environment is a map parameter.

Modules, one file each:

- `types.dfy` (`Types`): the shared value types and the scheme constants.
- `strconv.dfy` (`Strconv`): the part of `strconv.Atoi` the integer override relies on, with `Itoa` as its inverse.
- `env.dfy` (`Env`): `prefixer`, `stringEnvOverride` and `intEnvOverride`.
- `hooks.dfy` (`HookComposer`): `compositeHook`. A `*tls.Config` or `*http.Server` is an object whose fields the hooks rewrite in place.
- `options.dfy` (`Options`): the option constructors, the `Settings` view of the server, and how `New` applies options. It also has reference definitions of the final value of the enabled schemes, the primary and admin listeners, the shutdown handlers, the hooks and the HSTS setting.
- `coordination.dfy` (`Coordination`): functions and lemmas that specify the server's rules:
  - the scheme filter;
  - the fail-fast walk;
  - the serve plan;
  - the AND fold of stop reports;
  - the interrupt fold;
  - the accessor rule.
- `server.dfy` (`Lifecycle`): class `Server`, with the server's fields and imperative methods that are proved against those functions.

## Model

| member | source | states |
|---|---|---|
| Strconv.Atoi | server.go:106 | A parsed value lies in the 64-bit range. A parsed text starts with a digit or a sign, and its sign agrees with the value's sign. |
| Strconv.AtoiAccepts | server.go:106 | An optional sign followed by digits whose signed value fits in 64 bits parses to that value. |
| Strconv.AtoiRejectsOutOfRange | server.go:106-110 | Digits whose signed value is beyond the 64-bit range are an error, which makes intEnvOverride exit. |
| Strconv.AtoiRejectsNonDigit | server.go:106-110 | Any character after the optional sign that is not a digit is an error. |
| Strconv.AtoiRejectsNoDigits | server.go:106-110 | The empty text and a lone sign are errors. |
| Strconv.AtoiItoa | server.go:106 | Atoi reads back every 64-bit integer written in decimal. |
| Env.Prefixer | server.go:82-89 | An empty prefix leaves the name unchanged. Otherwise the result is the prefix, a dash and the name, and it splits back into those parts. |
| Env.StringEnvOverride | server.go:91-101 | The first key, in argument order, whose variable is non-empty gives the result. With none set, the default replaces an empty original; otherwise the original is kept. |
| Env.IntEnvOverride | server.go:103-118 | The same rule with 0 as unset. The first set variable decides: its value parsed by Atoi, or NotANumber (the process exit) when it does not parse, even if a later key holds a number. |
| Env.FirstSetUnique | server.go:92-96 | At most one key is the first one set, so the override result is determined. |
| HookComposer.RunTlsHooksConcat | server.go:137-141 | Running hooks a + b on a config is running a, then b on what a left. |
| HookComposer.RunListenerHooksConcat | server.go:143-147 | The same for ConfigureListener, with the same scheme and address passed to every hook. |
| HookComposer.LastTlsHookDecides | server.go:124-141 | Hooks(hook, extra...) runs the first argument before the extras. The last hook runs on the fields the earlier ones left. |
| HookComposer.ConfigureTLS | server.go:137-141 | Every hook runs in registration order on the same config object. The final fields are the in-order composition. |
| HookComposer.ConfigureListener | server.go:143-147 | Every hook runs in registration order on the same server object. The final fields are the in-order composition. |
| Options.ApplyOption | server.go:128-233 | The change each option's closure makes. No option touches the cleanup timeout or the header limit, admin listeners are only appended to, and an empty OnShutdown changes nothing. |
| Options.Defaults | server.go:238-248 | The server New starts from: no hooks, no HSTS (so the wrap leaves it alone), no admin listeners, a no-op shutdown callback, the three default providers, and the package's schemes and admin handler. |
| Options.ApplyAll | server.go:250-252 | The options applied in order. The cleanup timeout and header limit stay as the defaults set them, and the starting admin listeners are kept in front. |
| Options.WrapHsts | server.go:254-259 | Only the handler changes. Without HSTS nothing changes; with it the handler is wrapped once with the configured max-age and preload flag. |
| Options.Hooks | server.go:124-131 | On any server, the option sets the hook to a composite of [hook] + extra and changes nothing else. |
| Options.HandlesRequestsWith | server.go:150-154 | Sets only the handler. |
| Options.LogsWith | server.go:157-161 | Sets only the logger. |
| Options.EnablesSchemes | server.go:164-168 | Replaces only the enabled schemes, even with an empty list. |
| Options.OnShutdown | server.go:171-182 | With no handlers it changes nothing. Otherwise the shutdown callback becomes these handlers, in order. |
| Options.WithListeners | server.go:185-190 | Replaces the primary listeners with [listener] + extra. |
| Options.WithExtraListeners | server.go:193-198 | Appends [listener] + extra to the primary listeners. |
| Options.WithAdminListeners | server.go:201-206 | Appends [listener] + extra to the admin listeners. |
| Options.HandlesAdminWith | server.go:209-213 | Sets only the admin handler. |
| Options.WithAdmin | server.go:216-222 | Appends to the admin listeners and sets the admin handler. Nothing else changes. |
| Options.EnableHSTS | server.go:224-234 | The configured max-age is never 0. A zero argument becomes 126 days; any other value is kept, and so is the preload flag. |
| Options.ApplyAllConcat | server.go:250-252 | Applying the options a + b is applying a, then b to the result. |
| Options.SchemesLastWins | server.go:164-168 | After any option list, the enabled schemes are those of the last EnablesSchemes, or the starting ones when there is none. |
| Options.ListenersFromOptions | server.go:185-198 | The primary listeners are the last replacement followed by every later append. |
| Options.AdminListenersOnlyGrow | server.go:201-222 | The admin listeners are the starting ones followed by every admin listener the options add, in order. |
| Options.ShutdownHandlersLastWins | server.go:171-182 | The shutdown callback is the last non-empty OnShutdown's handlers. An empty OnShutdown never clears an earlier one. |
| Options.HooksLastWins | server.go:124-131 | Hooks options do not accumulate: the last one's composite is the server's hook. |
| Options.HstsLastWins | server.go:224-234 | The HSTS configuration is the last EnableHSTS's. |
| Options.NewHandler | server.go:237-261 | New wraps the handler once with the last HSTS settings exactly when an EnableHSTS was given. It starts from the three default providers and no admin listeners. |
| Coordination.EffectiveSchemes | server.go:305-308 | The schemes hasScheme consults are never empty. |
| Coordination.SchemeEnabled | server.go:305-315 | With no configured schemes only "http" is enabled; otherwise exactly the configured schemes are. |
| Coordination.EnabledOnly | server.go:371-374 | The listeners Listen visits, in order: every one kept has an enabled scheme. |
| Coordination.EnabledOnlyMembers | server.go:304-316 | The scheme filter keeps exactly the listeners whose scheme hasScheme accepts. |
| Coordination.EnabledOnlyConcat | server.go:371 | Filtering distributes over concatenation, so relative order is kept. |
| Coordination.FirstFailure | server.go:344-348 | The index of the first failing call: every call before it succeeded, and the call at it failed. |
| Coordination.FirstFailureUnique | server.go:375-378 | Any index with those two properties is the first failure. |
| Coordination.ListenPrimariesFirst | server.go:371 | Listen binds every enabled primary listener before any enabled admin listener. |
| Coordination.ListenSucceedsIff | server.go:370-381 | Listen returns nil exactly when every configured listener with an enabled scheme binds. It never calls a listener whose scheme is disabled. |
| Coordination.ServePlan | server.go:333-363 | The Serve calls when nothing fails: one per enabled primary listener plus one per admin listener. |
| Coordination.ServePlanShape | server.go:333-363 | Serve starts the enabled primary listeners with the main handler and the hooks. It then starts every admin listener with the admin handler and no hooks. |
| Coordination.AdminSchemeIgnoredByServe | server.go:351-363 | An admin listener whose scheme is disabled is never bound by Listen, yet Serve starts it. |
| Coordination.ServeStartsAllInOrder | server.go:329-363 | When every Serve call succeeds, the running servers are the enabled primaries' handles in order, then all admin listeners' handles. |
| Coordination.LookupDeterministic | server.go:438-474 | The accessor rule picks exactly one answer. |
| Coordination.AndFold | server.go:421-424 | The success accumulator: true with no reports, and true only if every report is. |
| Coordination.AndFoldAll | server.go:421-424 | The fold of stop reports is true exactly when every report is a success. It is true with no servers. |
| Coordination.AndFoldOrderIndependent | server.go:403-424 | The order in which reports arrive does not change the outcome. |
| Coordination.ReceivedAsWritten | server.go:421-424 | As written, the fold stops receiving after the first failed report. |
| Coordination.ShortCircuitStrandsReports | server.go:421-424 | As written, with reports [false, true] only one of two reports is received. |
| Coordination.ReceivedAsWrittenStrands | server.go:421-424 | As written, some report goes unreceived exactly when a failure arrives before the last report. |
| Coordination.InterruptFold | server.go:476-489 | The interrupt loop over delivered signals: once interrupted, every signal is ignored, and no more shutdowns are requested than signals arrive. |
| Coordination.InterruptOnlyFirst | server.go:476-489 | Over any signal sequence, the interrupted flag ends set if it was set or a signal came. One shutdown is requested exactly when the server was not interrupted and a signal came; otherwise none. |
| Coordination.InterruptBatches | server.go:476-489 | Handling signals in two batches has the same effect as one batch. |
| Lifecycle.Server.New | server.go:237-261 | The configuration is the defaults with every option applied in order, then the HSTS wrap. The shutdown flag is clear, the channel is open and the server is not interrupted. |
| Lifecycle.Server.Apply | server.go:250-252 | Running one option's closure changes the server's configuration exactly as the option says. |
| Lifecycle.Server.HasScheme | server.go:304-316 | True exactly when the scheme is enabled. With no schemes configured, true exactly for "http"; otherwise membership in the configured list. |
| Lifecycle.Server.Listen | server.go:370-381 | The listeners it calls are the enabled targets up to and including the first failure. The error is that failure's, or nil when there is none. |
| Lifecycle.Server.Serve | server.go:319-367 | A Listen error is returned before any server starts. Otherwise the calls follow the serve plan up to the first failure, which is returned. The servers are the handles started before it. |
| Lifecycle.Server.CompareAndSwapShuttingDown | server.go:385 | Swaps exactly when the word holds the expected value. |
| Lifecycle.Server.CloseShutdown | server.go:386 | Closes the shutdown channel, which must still be open. |
| Lifecycle.Server.Shutdown | server.go:384-389 | Always returns nil. Afterwards the flag is 1 and the channel is closed, exactly once in total. A later call changes neither. |
| Lifecycle.Server.HandleShutdown | server.go:391-430 | Receives every report. The shutdown callback runs (`ran`) exactly when every report is a success, including when there are no servers; only then are the handlers fired. |
| Lifecycle.Server.HandleInterrupt | server.go:476-489 | The state after the signals is the interrupt fold's. Shutdown is requested only for the first signal to an uninterrupted server, and the channel is closed afterwards exactly when it was before or such a signal came. |
| Lifecycle.Server.LookupListener | server.go:438-474 | The accessor rule: nil when the default provider's scheme is disabled. Otherwise Listener() of the first primary listener with the wanted scheme, or of the default provider when there is none. |
| Lifecycle.Server.UnixListener | server.go:438-448 | The accessor rule for "unix" with the default socket provider. |
| Lifecycle.Server.HTTPListener | server.go:451-461 | The accessor rule for "http" with the default HTTP provider. |
| Lifecycle.Server.TLSListener | server.go:464-474 | The accessor rule for "https" with the default TLS provider. |

## Left out

- Goroutines, `sync.WaitGroup`, `sync.Once`, the `shutdownChan` channel and `wg.Wait`: only the sequential order of effects is modelled.
  - `Lifecycle.Server.Serve` does not start `handleShutdown` or `handleInterrupt`.
  - `HandleShutdown` takes the stop reports as a sequence in arrival order.
  - `HandleInterrupt` takes the delivered signals as a sequence.
- The data race between `Serve` appending to `servers` and `handleShutdown` reading them is not modelled. `HandleShutdown` receives the servers as a finished sequence.
- The 15-second shutdown deadline from `context.WithTimeout`: wall-clock time. A server's stop is a boolean report. `CleanupTimeout` is only passed through in `ServerConfig`.
- `signal.Notify` and real OS signals: only the delivered sequence of `SIGINT`/`SIGTERM` is modelled.
- `net.Listener`, `http.Server`, TLS and the HSTS handler's behaviour: these are opaque handles. The HSTS wrap is the constructor `HstsHandler(inner, maxAge, preload)`.
- `GetHandler` reads one field; `Config().handler` is that read.
- The default admin handler's body (it answers 200 "OK"): it is a `Handler` value in `Globals`.
- Flag registration (pflag), `init` and the package-level globals: the configuration `New` reads is passed explicitly as `Globals`.
- `SplitHostPort`: its parsing lives in `net.SplitHostPort`, which is not part of this model.
- `stdLogger` and every log call: logging I/O. `stdLogger.Error` is `log.Fatalf`, a process exit, which is not modelled.
- The provider types (`UnixSocketFlags`, `HTTPFlags`, `TLSFlags`) and their memoised `Listener()` and `Serve()`: they are not part of this model.
  - Their results are the functions `bind` and `serve`.
  - Scheme strings are attached to the listener values.
- `os.Getenv` and `os.Exit`: the environment is a map parameter, and the exit is the `NotANumber` result.
- The fatal message written to stderr is not modelled.
- Strconv.Atoi: assumes a 64-bit Go `int`, and merges the syntax and range errors into one `None`, since intEnvOverride treats both alike.
- Options.OnShutdown: the callback is a sequence of opaque handler values, so running them in order is the order of that sequence.
- Lifecycle.Server.HandleShutdown: a failed stop under the default `StdLogger` is a process exit (the error is logged with `log.Fatalf` before the report is sent), which is not modelled; a false report arises only with a logger set by `LogsWith`.
- Lifecycle.Server.HandleShutdown: it is the corrected fold, which receives every report; see Findings. The as-written fold is `Coordination.ReceivedAsWritten`.

## Findings

| source | as written | input that shows it | evidently intended | confidence | as-written member | corrected member |
|---|---|---|---|---|---|---|
| server.go:421-424 | `success = success && <-shutdownChan` short-circuits. After the first failed report the receive is skipped, so each later server's goroutine blocks forever on the unbuffered channel. | a server configured with a `LogsWith` logger (the default `stdLogger` exits the process on a failed stop) and two servers whose reports arrive as [false, true]: one report is received and the second sender never completes | receive one report per server, then decide whether the callback runs from all of them (the outcome is the same AND) | medium, not executed | Coordination.ShortCircuitStrandsReports | Lifecycle.Server.HandleShutdown |

/**
 * The sequential rules of the lifecycle coordinator, as functions: which
 * schemes are enabled, which listeners Listen binds and Serve starts and with
 * which configuration, how a fail-fast walk over provider calls ends, how the
 * per-server stop reports are combined, and how delivered signals turn into
 * shutdown requests. The Server class in module Lifecycle is proved against
 * these.
 */
module Coordination {
  import opened Types
  import opened HookComposer
  import opened Options

  /** The schemes hasScheme consults: the configured ones, or ["http"] when none are. */
  function EffectiveSchemes(enabled: seq<string>): (r: seq<string>)
    ensures |r| > 0
  {
    if |enabled| == 0 then DefaultSchemes else enabled
  }

  /** hasScheme: with no configured schemes only "http" is enabled; otherwise the configured list decides. */
  function SchemeEnabled(enabled: seq<string>, scheme: string): (b: bool)
    ensures |enabled| == 0 ==> (b <==> scheme == SchemeHTTP)
    ensures |enabled| > 0 ==> (b <==> scheme in enabled)
  {
    scheme in EffectiveSchemes(enabled)
  }

  /** The listeners whose scheme is enabled, in their configured order. */
  function EnabledOnly(enabled: seq<string>, ls: seq<ServerListener>): (r: seq<ServerListener>)
    ensures |r| <= |ls|
    ensures forall i :: 0 <= i < |r| ==> SchemeEnabled(enabled, r[i].scheme)
    decreases |ls|
  {
    if ls == [] then []
    else
      var rest := EnabledOnly(enabled, ls[..|ls| - 1]);
      var l := ls[|ls| - 1];
      if SchemeEnabled(enabled, l.scheme) then rest + [l] else rest
  }

  /** The filter keeps exactly the listeners whose scheme is enabled. */
  lemma {:induction false} EnabledOnlyMembers(enabled: seq<string>, ls: seq<ServerListener>)
    ensures forall l :: l in EnabledOnly(enabled, ls) <==> l in ls && SchemeEnabled(enabled, l.scheme)
    decreases |ls|
  {
    if ls != [] {
      var n := |ls| - 1;
      EnabledOnlyMembers(enabled, ls[..n]);
      assert ls == ls[..n] + [ls[n]];
      assert forall x :: x in ls <==> x in ls[..n] || x == ls[n];
    }
  }

  /** One more listener: the filter grows by it exactly when its scheme is enabled. */
  lemma EnabledStep(enabled: seq<string>, ls: seq<ServerListener>, i: nat)
    requires i < |ls|
    ensures EnabledOnly(enabled, ls[..i + 1])
         == EnabledOnly(enabled, ls[..i]) + (if SchemeEnabled(enabled, ls[i].scheme) then [ls[i]] else [])
  {
    assert ls[..i + 1][..i] == ls[..i];
  }

  /** Filtering distributes over concatenation, so relative order is kept. */
  lemma {:induction false} EnabledOnlyConcat(enabled: seq<string>, a: seq<ServerListener>, b: seq<ServerListener>)
    ensures EnabledOnly(enabled, a + b) == EnabledOnly(enabled, a) + EnabledOnly(enabled, b)
    decreases |b|
  {
    if b == [] {
      assert a + b == a;
    } else {
      var n := |b| - 1;
      assert (a + b)[..|a + b| - 1] == a + b[..n];
      assert (a + b)[|a + b| - 1] == b[n];
      EnabledOnlyConcat(enabled, a, b[..n]);
    }
  }

  // A fail-fast walk: calls are made one after another until the first one
  // that fails; that call's error is the result and nothing after it runs.

  /** The index of the first failing call, or |ts| when all succeed. */
  function FirstFailure<T>(ts: seq<T>, run: T -> Outcome<Handle>): (k: nat)
    ensures k <= |ts|
    ensures forall i :: 0 <= i < k ==> run(ts[i]).Ok?
    ensures k < |ts| ==> run(ts[k]).Err?
    decreases |ts|
  {
    if ts == [] then 0
    else if run(ts[0]).Err? then 0
    else 1 + FirstFailure(ts[1..], run)
  }

  /** Any index with the two defining properties is the first failure. */
  lemma {:induction false} FirstFailureUnique<T>(ts: seq<T>, run: T -> Outcome<Handle>, k: nat)
    requires k <= |ts|
    requires forall i :: 0 <= i < k ==> run(ts[i]).Ok?
    requires k < |ts| ==> run(ts[k]).Err?
    ensures FirstFailure(ts, run) == k
    decreases k
  {
    if k > 0 {
      assert run(ts[0]).Ok?;
      assert forall i :: 0 <= i < k - 1 ==> ts[1..][i] == ts[i + 1];
      FirstFailureUnique(ts[1..], run, k - 1);
    }
  }

  /** The calls the walk makes: all of them, or up to and including the first failure. */
  function Attempted<T>(ts: seq<T>, run: T -> Outcome<Handle>): (r: seq<T>)
    ensures |r| <= |ts| && r == ts[..|r|]
    ensures FirstFailure(ts, run) == |ts| ==> r == ts
    ensures FirstFailure(ts, run) < |ts| ==> |r| == FirstFailure(ts, run) + 1 && run(r[|r| - 1]).Err?
  {
    var k := FirstFailure(ts, run);
    if k < |ts| then ts[..k + 1] else ts
  }

  /** The error the walk returns: the first failure's, or none. */
  function FailureOf<T>(ts: seq<T>, run: T -> Outcome<Handle>): (r: Option<Error>)
    ensures r.None? <==> forall i :: 0 <= i < |ts| ==> run(ts[i]).Ok?
    ensures r.Some? ==> exists i :: 0 <= i < |ts| && run(ts[i]) == Err(r.value)
  {
    var k := FirstFailure(ts, run);
    if k < |ts| then Some(run(ts[k]).error) else None
  }

  /** The handles of the calls that succeeded before the walk stopped, in call order. */
  function Started<T>(ts: seq<T>, run: T -> Outcome<Handle>): (r: seq<Handle>)
    ensures |r| == FirstFailure(ts, run)
    ensures forall i :: 0 <= i < |r| ==> run(ts[i]) == Ok(r[i])
  {
    var k := FirstFailure(ts, run);
    seq(k, i requires 0 <= i < k => run(ts[i]).value)
  }

  /** A walk that has made the calls `done`, all successful, and now makes a failing one stops there. */
  lemma WalkStopsAt<T>(ts: seq<T>, run: T -> Outcome<Handle>, done: seq<T>, handles: seq<Handle>)
    requires |done| < |ts| && done == ts[..|done|]
    requires |handles| == |done|
    requires forall j :: 0 <= j < |done| ==> run(done[j]) == Ok(handles[j])
    requires run(ts[|done|]).Err?
    ensures Attempted(ts, run) == done + [ts[|done|]]
    ensures FailureOf(ts, run) == Some(run(ts[|done|]).error)
    ensures Started(ts, run) == handles
  {
    assert forall j :: 0 <= j < |done| ==> ts[j] == done[j];
    FirstFailureUnique(ts, run, |done|);
    assert ts[..|done| + 1] == done + [ts[|done|]];
    var st := Started(ts, run);
    assert forall j :: 0 <= j < |handles| ==> st[j] == handles[j];
  }

  /** A walk whose every call succeeded made all of them and returns no error. */
  lemma WalkCompletes<T>(ts: seq<T>, run: T -> Outcome<Handle>, handles: seq<Handle>)
    requires |handles| == |ts|
    requires forall j :: 0 <= j < |ts| ==> run(ts[j]) == Ok(handles[j])
    ensures Attempted(ts, run) == ts
    ensures FailureOf(ts, run).None?
    ensures Started(ts, run) == handles
  {
    FirstFailureUnique(ts, run, |ts|);
    var st := Started(ts, run);
    assert forall j :: 0 <= j < |handles| ==> st[j] == handles[j];
  }

  /** The enabled listeners among the first i are a prefix of all the enabled ones. */
  lemma EnabledPrefix(enabled: seq<string>, ls: seq<ServerListener>, i: nat)
    requires i <= |ls|
    ensures var e := EnabledOnly(enabled, ls[..i]);
      |e| <= |EnabledOnly(enabled, ls)| && e == EnabledOnly(enabled, ls)[..|e|]
  {
    EnabledOnlyConcat(enabled, ls[..i], ls[i..]);
    assert ls[..i] + ls[i..] == ls;
  }

  /** The listeners Listen binds: primary then admin listeners, disabled schemes skipped. */
  function ListenTargets(s: Settings): seq<ServerListener> {
    EnabledOnly(s.enabledListeners, s.listeners + s.adminListeners)
  }

  /** Listen binds every enabled primary listener before any enabled admin listener. */
  lemma ListenPrimariesFirst(s: Settings)
    ensures ListenTargets(s)
         == EnabledOnly(s.enabledListeners, s.listeners) + EnabledOnly(s.enabledListeners, s.adminListeners)
  {
    EnabledOnlyConcat(s.enabledListeners, s.listeners, s.adminListeners);
  }

  /**
   * Listen succeeds exactly when every configured listener, primary or admin,
   * whose scheme is enabled binds; it never binds one whose scheme is disabled.
   */
  lemma ListenSucceedsIff(s: Settings, bind: ServerListener -> Outcome<Handle>)
    ensures FailureOf(ListenTargets(s), bind).None?
        <==> forall l :: l in s.listeners + s.adminListeners && SchemeEnabled(s.enabledListeners, l.scheme)
                         ==> bind(l).Ok?
    ensures forall l :: l in Attempted(ListenTargets(s), bind) ==> SchemeEnabled(s.enabledListeners, l.scheme)
  {
    var ts := ListenTargets(s);
    EnabledOnlyMembers(s.enabledListeners, s.listeners + s.adminListeners);
    var ok := forall l :: l in s.listeners + s.adminListeners && SchemeEnabled(s.enabledListeners, l.scheme)
                          ==> bind(l).Ok?;
    if FailureOf(ts, bind).None? {
      forall l | l in s.listeners + s.adminListeners && SchemeEnabled(s.enabledListeners, l.scheme)
        ensures bind(l).Ok?
      {
        assert l in ts;
        var i :| 0 <= i < |ts| && ts[i] == l;
      }
    } else {
      var k := FirstFailure(ts, bind);
      assert ts[k] in ts;
      assert !ok;
    }
    var att := Attempted(ts, bind);
    forall l | l in att ensures SchemeEnabled(s.enabledListeners, l.scheme) {
      var i :| 0 <= i < |att| && att[i] == l;
      assert ts[i] == l;
    }
  }

  // Serve.

  /** What ServerListener.Serve receives. */
  datatype ServerConfig = ServerConfig(
    maxHeaderSize: int,
    logger: Logger,
    handler: Handler,
    callbacks: Option<CompositeHook>,
    cleanupTimeout: int)

  /** One call of ServerListener.Serve: the listener and the configuration passed to it. */
  datatype ServeCall = ServeCall(listener: ServerListener, config: ServerConfig)

  /** Primary listeners serve the main handler and see the hooks. */
  function PrimaryConfig(s: Settings): ServerConfig {
    ServerConfig(s.maxHeaderSize, s.logger, s.handler, s.callbacks, s.cleanupTimeout)
  }

  /** Admin listeners serve the admin handler and get no hooks. */
  function AdminConfig(s: Settings): ServerConfig {
    ServerConfig(s.maxHeaderSize, s.logger, s.adminHandler, None, s.cleanupTimeout)
  }

  function ServeCalls(ls: seq<ServerListener>, cfg: ServerConfig): (r: seq<ServeCall>)
    ensures |r| == |ls|
    ensures forall i :: 0 <= i < |ls| ==> r[i] == ServeCall(ls[i], cfg)
  {
    seq(|ls|, i requires 0 <= i < |ls| => ServeCall(ls[i], cfg))
  }

  /**
   * The calls Serve makes when nothing fails: every enabled primary listener
   * with the primary configuration, then every admin listener, whatever its
   * scheme, with the admin configuration.
   */
  function ServePlan(s: Settings): (r: seq<ServeCall>)
    ensures |r| == |EnabledOnly(s.enabledListeners, s.listeners)| + |s.adminListeners|
  {
    ServeCalls(EnabledOnly(s.enabledListeners, s.listeners), PrimaryConfig(s))
      + ServeCalls(s.adminListeners, AdminConfig(s))
  }

  /**
   * The plan starts every enabled primary listener with the main handler and
   * the hooks, then every admin listener with the admin handler and no hooks.
   */
  lemma ServePlanShape(s: Settings)
    ensures var p := EnabledOnly(s.enabledListeners, s.listeners);
      && |ServePlan(s)| == |p| + |s.adminListeners|
      && (forall i :: 0 <= i < |p| ==>
            && ServePlan(s)[i].listener == p[i]
            && ServePlan(s)[i].config.handler == s.handler
            && ServePlan(s)[i].config.callbacks == s.callbacks)
      && (forall i :: |p| <= i < |ServePlan(s)| ==>
            && ServePlan(s)[i].listener == s.adminListeners[i - |p|]
            && ServePlan(s)[i].config.handler == s.adminHandler
            && ServePlan(s)[i].config.callbacks.None?)
  {
  }

  lemma ServeCallsConcat(a: seq<ServerListener>, b: seq<ServerListener>, cfg: ServerConfig)
    ensures ServeCalls(a + b, cfg) == ServeCalls(a, cfg) + ServeCalls(b, cfg)
  {
  }

  /** The primary calls made for the first i primary listeners open the serve plan. */
  lemma PlanPrefixPrimary(s: Settings, i: nat)
    requires i <= |s.listeners|
    ensures var done := ServeCalls(EnabledOnly(s.enabledListeners, s.listeners[..i]), PrimaryConfig(s));
      |done| <= |ServePlan(s)| && done == ServePlan(s)[..|done|]
  {
    var p := EnabledOnly(s.enabledListeners, s.listeners);
    var e := EnabledOnly(s.enabledListeners, s.listeners[..i]);
    EnabledPrefix(s.enabledListeners, s.listeners, i);
    assert p == e + p[|e|..];
    ServeCallsConcat(e, p[|e|..], PrimaryConfig(s));
    var done := ServeCalls(e, PrimaryConfig(s));
    var tail := ServeCalls(p[|e|..], PrimaryConfig(s)) + ServeCalls(s.adminListeners, AdminConfig(s));
    assert ServePlan(s) == done + tail;
    assert (done + tail)[..|done|] == done;
  }

  /** All primary calls and the admin calls for the first i admin listeners open the serve plan. */
  lemma PlanPrefixAdmin(s: Settings, i: nat)
    requires i <= |s.adminListeners|
    ensures var done := ServeCalls(EnabledOnly(s.enabledListeners, s.listeners), PrimaryConfig(s))
                        + ServeCalls(s.adminListeners[..i], AdminConfig(s));
      |done| <= |ServePlan(s)| && done == ServePlan(s)[..|done|]
  {
    assert s.adminListeners == s.adminListeners[..i] + s.adminListeners[i..];
    ServeCallsConcat(s.adminListeners[..i], s.adminListeners[i..], AdminConfig(s));
  }

  // Steps of the Listen and Serve loops, each stated on its own so that the
  // methods only have to line up their loop state with these.

  /** Listen meets a failing enabled listener after binding the enabled ones before it. */
  lemma ListenStopsAt(enabled: seq<string>, all: seq<ServerListener>, i: nat,
                      bind: ServerListener -> Outcome<Handle>, handles: seq<Handle>)
    requires i < |all| && SchemeEnabled(enabled, all[i].scheme) && bind(all[i]).Err?
    requires var done := EnabledOnly(enabled, all[..i]);
      |handles| == |done| && forall j :: 0 <= j < |done| ==> bind(done[j]) == Ok(handles[j])
    ensures Attempted(EnabledOnly(enabled, all), bind) == EnabledOnly(enabled, all[..i]) + [all[i]]
    ensures FailureOf(EnabledOnly(enabled, all), bind) == Some(bind(all[i]).error)
  {
    EnabledPrefix(enabled, all, i);
    EnabledPrefix(enabled, all, i + 1);
    EnabledStep(enabled, all, i);
    WalkStopsAt(EnabledOnly(enabled, all), bind, EnabledOnly(enabled, all[..i]), handles);
  }

  /** Listen bound every enabled listener without error. */
  lemma ListenCompletes(enabled: seq<string>, all: seq<ServerListener>,
                        bind: ServerListener -> Outcome<Handle>, handles: seq<Handle>)
    requires var done := EnabledOnly(enabled, all);
      |handles| == |done| && forall j :: 0 <= j < |done| ==> bind(done[j]) == Ok(handles[j])
    ensures Attempted(EnabledOnly(enabled, all), bind) == EnabledOnly(enabled, all)
    ensures FailureOf(EnabledOnly(enabled, all), bind).None?
  {
    WalkCompletes(EnabledOnly(enabled, all), bind, handles);
  }

  /** The primary calls for the first i + 1 listeners extend those for the first i by at most listener i. */
  lemma PrimaryStep(s: Settings, i: nat)
    requires i < |s.listeners|
    ensures ServeCalls(EnabledOnly(s.enabledListeners, s.listeners[..i + 1]), PrimaryConfig(s))
         == ServeCalls(EnabledOnly(s.enabledListeners, s.listeners[..i]), PrimaryConfig(s))
            + (if SchemeEnabled(s.enabledListeners, s.listeners[i].scheme)
               then [ServeCall(s.listeners[i], PrimaryConfig(s))] else [])
  {
    EnabledStep(s.enabledListeners, s.listeners, i);
    ServeCallsConcat(EnabledOnly(s.enabledListeners, s.listeners[..i]), [s.listeners[i]], PrimaryConfig(s));
  }

  /** Serve meets a failing enabled primary listener after starting the ones before it. */
  lemma PrimaryStopsAt(s: Settings, i: nat, served: seq<ServeCall>, servers: seq<Handle>,
                       serve: ServeCall -> Outcome<Handle>)
    requires i < |s.listeners| && SchemeEnabled(s.enabledListeners, s.listeners[i].scheme)
    requires served == ServeCalls(EnabledOnly(s.enabledListeners, s.listeners[..i]), PrimaryConfig(s))
    requires |servers| == |served| && forall j :: 0 <= j < |served| ==> serve(served[j]) == Ok(servers[j])
    requires serve(ServeCall(s.listeners[i], PrimaryConfig(s))).Err?
    ensures Attempted(ServePlan(s), serve) == served + [ServeCall(s.listeners[i], PrimaryConfig(s))]
    ensures FailureOf(ServePlan(s), serve) == Some(serve(ServeCall(s.listeners[i], PrimaryConfig(s))).error)
    ensures Started(ServePlan(s), serve) == servers
  {
    PlanPrefixPrimary(s, i);
    PlanPrefixPrimary(s, i + 1);
    PrimaryStep(s, i);
    var plan := ServePlan(s);
    assert plan[..|served| + 1] == served + [ServeCall(s.listeners[i], PrimaryConfig(s))];
    assert plan[|served|] == ServeCall(s.listeners[i], PrimaryConfig(s));
    WalkStopsAt(plan, serve, served, servers);
  }

  /** The admin calls for the first i + 1 admin listeners extend those for the first i by listener i. */
  lemma AdminStep(s: Settings, i: nat)
    requires i < |s.adminListeners|
    ensures ServeCalls(s.adminListeners[..i + 1], AdminConfig(s))
         == ServeCalls(s.adminListeners[..i], AdminConfig(s)) + [ServeCall(s.adminListeners[i], AdminConfig(s))]
  {
    assert s.adminListeners[..i + 1] == s.adminListeners[..i] + [s.adminListeners[i]];
    ServeCallsConcat(s.adminListeners[..i], [s.adminListeners[i]], AdminConfig(s));
  }

  /** Serve meets a failing admin listener after starting every primary and the admin ones before it. */
  lemma AdminStopsAt(s: Settings, i: nat, served: seq<ServeCall>, servers: seq<Handle>,
                     serve: ServeCall -> Outcome<Handle>)
    requires i < |s.adminListeners|
    requires served == ServeCalls(EnabledOnly(s.enabledListeners, s.listeners), PrimaryConfig(s))
                       + ServeCalls(s.adminListeners[..i], AdminConfig(s))
    requires |servers| == |served| && forall j :: 0 <= j < |served| ==> serve(served[j]) == Ok(servers[j])
    requires serve(ServeCall(s.adminListeners[i], AdminConfig(s))).Err?
    ensures Attempted(ServePlan(s), serve) == served + [ServeCall(s.adminListeners[i], AdminConfig(s))]
    ensures FailureOf(ServePlan(s), serve) == Some(serve(ServeCall(s.adminListeners[i], AdminConfig(s))).error)
    ensures Started(ServePlan(s), serve) == servers
  {
    PlanPrefixAdmin(s, i);
    PlanPrefixAdmin(s, i + 1);
    AdminStep(s, i);
    var plan := ServePlan(s);
    var call := ServeCall(s.adminListeners[i], AdminConfig(s));
    assert served + [call]
        == ServeCalls(EnabledOnly(s.enabledListeners, s.listeners), PrimaryConfig(s))
           + ServeCalls(s.adminListeners[..i + 1], AdminConfig(s));
    assert plan[..|served| + 1] == served + [call];
    assert plan[|served|] == call;
    WalkStopsAt(plan, serve, served, servers);
  }

  /** Serve started every planned call without error. */
  lemma ServeCompletes(s: Settings, served: seq<ServeCall>, servers: seq<Handle>, serve: ServeCall -> Outcome<Handle>)
    requires served == ServeCalls(EnabledOnly(s.enabledListeners, s.listeners), PrimaryConfig(s))
                       + ServeCalls(s.adminListeners, AdminConfig(s))
    requires |servers| == |served| && forall j :: 0 <= j < |served| ==> serve(served[j]) == Ok(servers[j])
    ensures Attempted(ServePlan(s), serve) == served
    ensures FailureOf(ServePlan(s), serve).None?
    ensures Started(ServePlan(s), serve) == servers
  {
    WalkCompletes(ServePlan(s), serve, servers);
  }

  /**
   * Listen filters admin listeners by scheme and Serve does not: an admin
   * listener whose scheme is disabled is never bound by Listen, yet Serve
   * starts it with the admin configuration.
   */
  lemma AdminSchemeIgnoredByServe(s: Settings, l: ServerListener)
    requires l in s.adminListeners
    requires !SchemeEnabled(s.enabledListeners, l.scheme)
    ensures l !in ListenTargets(s)
    ensures ServeCall(l, AdminConfig(s)) in ServePlan(s)
  {
    var p := EnabledOnly(s.enabledListeners, s.listeners);
    EnabledOnlyMembers(s.enabledListeners, s.listeners + s.adminListeners);
    var j :| 0 <= j < |s.adminListeners| && s.adminListeners[j] == l;
    var plan := ServePlan(s);
    assert plan[|p| + j] == ServeCall(l, AdminConfig(s));
  }

  /**
   * When every call succeeds, the running servers are the handles of the
   * enabled primary listeners in order, followed by those of all admin listeners.
   */
  lemma ServeStartsAllInOrder(s: Settings, serve: ServeCall -> Outcome<Handle>)
    requires FailureOf(ServePlan(s), serve).None?
    ensures var p := EnabledOnly(s.enabledListeners, s.listeners);
      var r := Started(ServePlan(s), serve);
      && |r| == |p| + |s.adminListeners|
      && (forall i :: 0 <= i < |p| ==> serve(ServeCall(p[i], PrimaryConfig(s))) == Ok(r[i]))
      && (forall i :: 0 <= i < |s.adminListeners| ==>
            serve(ServeCall(s.adminListeners[i], AdminConfig(s))) == Ok(r[|p| + i]))
  {
    var plan := ServePlan(s);
    var p := EnabledOnly(s.enabledListeners, s.listeners);
    FirstFailureUnique(plan, serve, |plan|);
    assert plan == ServeCalls(p, PrimaryConfig(s)) + ServeCalls(s.adminListeners, AdminConfig(s));
    var r := Started(plan, serve);
    forall i | 0 <= i < |s.adminListeners|
      ensures serve(ServeCall(s.adminListeners[i], AdminConfig(s))) == Ok(r[|p| + i])
    {
      assert plan[|p| + i] == ServeCall(s.adminListeners[i], AdminConfig(s));
    }
  }

  // Listener accessors.

  /** What UnixListener, HTTPListener and TLSListener return: nil for a disabled scheme, else Listener()'s result. */
  datatype ListenerLookup = Disabled | Found(result: Outcome<Handle>)

  /**
   * The accessor rule: nil when the default provider's scheme is disabled;
   * otherwise the first configured primary listener with the wanted scheme,
   * or the default provider when there is none.
   */
  ghost predicate IsLookup(s: Settings, wanted: string, fallback: ServerListener,
                           bind: ServerListener -> Outcome<Handle>, r: ListenerLookup)
  {
    if !SchemeEnabled(s.enabledListeners, fallback.scheme) then r == Disabled
    else if forall i :: 0 <= i < |s.listeners| ==> s.listeners[i].scheme != wanted then r == Found(bind(fallback))
    else exists k :: && 0 <= k < |s.listeners|
                     && s.listeners[k].scheme == wanted
                     && (forall i :: 0 <= i < k ==> s.listeners[i].scheme != wanted)
                     && r == Found(bind(s.listeners[k]))
  }

  /** The accessor rule picks exactly one answer. */
  lemma LookupDeterministic(s: Settings, wanted: string, fallback: ServerListener,
                            bind: ServerListener -> Outcome<Handle>, r1: ListenerLookup, r2: ListenerLookup)
    requires IsLookup(s, wanted, fallback, bind, r1)
    requires IsLookup(s, wanted, fallback, bind, r2)
    ensures r1 == r2
  {
    if SchemeEnabled(s.enabledListeners, fallback.scheme)
       && !(forall i :: 0 <= i < |s.listeners| ==> s.listeners[i].scheme != wanted)
    {
      var k1 :| && 0 <= k1 < |s.listeners| && s.listeners[k1].scheme == wanted
                && (forall i :: 0 <= i < k1 ==> s.listeners[i].scheme != wanted)
                && r1 == Found(bind(s.listeners[k1]));
      var k2 :| && 0 <= k2 < |s.listeners| && s.listeners[k2].scheme == wanted
                && (forall i :: 0 <= i < k2 ==> s.listeners[i].scheme != wanted)
                && r2 == Found(bind(s.listeners[k2]));
      assert !(k1 < k2) && !(k2 < k1);
    }
  }

  // Shutdown fan-in.

  /** handleShutdown's accumulator: the AND of the reports in the order they arrive. */
  function AndFold(reports: seq<bool>): (b: bool)
    ensures reports == [] ==> b
    ensures b ==> forall i :: 0 <= i < |reports| ==> reports[i]
    decreases |reports|
  {
    if reports == [] then true else AndFold(reports[..|reports| - 1]) && reports[|reports| - 1]
  }

  /** The fold is true exactly when every server reported a clean stop; with no server it is true. */
  lemma {:induction false} AndFoldAll(reports: seq<bool>)
    ensures AndFold(reports) <==> forall i :: 0 <= i < |reports| ==> reports[i]
    decreases |reports|
  {
    if reports != [] {
      var n := |reports| - 1;
      AndFoldAll(reports[..n]);
      assert forall i :: 0 <= i < n ==> reports[..n][i] == reports[i];
    }
  }

  /** The reports may arrive in any order; the outcome depends only on which reports there are. */
  lemma AndFoldOrderIndependent(r1: seq<bool>, r2: seq<bool>)
    requires multiset(r1) == multiset(r2)
    ensures AndFold(r1) == AndFold(r2)
  {
    AndFoldAll(r1);
    AndFoldAll(r2);
    assert (false in r1) == (false in multiset(r1));
    assert (false in r2) == (false in multiset(r2));
    assert (forall i :: 0 <= i < |r1| ==> r1[i]) <==> false !in r1;
    assert (forall i :: 0 <= i < |r2| ==> r2[i]) <==> false !in r2;
  }

  /**
   * How many reports handleShutdown as written receives: `success && <-ch`
   * does not evaluate the receive once success is false, so receiving stops
   * after the first false report.
   */
  function ReceivedAsWritten(reports: seq<bool>): (n: nat)
    ensures n <= |reports|
    decreases |reports|
  {
    if reports == [] then 0
    else if !reports[0] then 1
    else 1 + ReceivedAsWritten(reports[1..])
  }

  /**
   * As written, every report after the first false one is never received: its
   * sender is left blocked on the unbuffered channel. Two servers whose first
   * report is a failure show it.
   */
  lemma ShortCircuitStrandsReports()
    ensures ReceivedAsWritten([false, true]) == 1 < |[false, true]|
  {
  }

  /** As written, some report goes unreceived exactly when a failure arrives before the last report. */
  lemma {:induction false} ReceivedAsWrittenStrands(reports: seq<bool>)
    ensures ReceivedAsWritten(reports) < |reports| <==> exists i :: 0 <= i < |reports| - 1 && !reports[i]
    decreases |reports|
  {
    if reports != [] {
      var t := reports[1..];
      ReceivedAsWrittenStrands(t);
      if exists i :: 0 <= i < |t| - 1 && !t[i] {
        var i :| 0 <= i < |t| - 1 && !t[i];
        assert !reports[i + 1];
      }
      if exists i :: 0 <= i < |reports| - 1 && !reports[i] {
        var i :| 0 <= i < |reports| - 1 && !reports[i];
        if i > 0 {
          assert !t[i - 1];
        }
      }
    }
  }

  // Interrupts.

  datatype InterruptState = InterruptState(interrupted: bool, shutdownCalls: nat)

  /**
   * handleInterrupt over the signals delivered so far: a signal while not yet
   * interrupted sets the flag and requests a shutdown; any other is ignored.
   */
  function InterruptFold(interrupted: bool, signals: seq<Signal>): (r: InterruptState)
    ensures interrupted ==> r == InterruptState(true, 0)
    ensures r.shutdownCalls <= |signals|
    decreases |signals|
  {
    if signals == [] then InterruptState(interrupted, 0)
    else
      var before := InterruptFold(interrupted, signals[..|signals| - 1]);
      if before.interrupted then before
      else InterruptState(true, before.shutdownCalls + 1)
  }

  /** Only the first signal counts: at most one shutdown request, and only if not already interrupted. */
  lemma {:induction false} InterruptOnlyFirst(interrupted: bool, signals: seq<Signal>)
    ensures InterruptFold(interrupted, signals)
         == InterruptState(interrupted || signals != [], if !interrupted && signals != [] then 1 else 0)
    decreases |signals|
  {
    if signals != [] {
      InterruptOnlyFirst(interrupted, signals[..|signals| - 1]);
    }
  }

  /** Signals handled in two batches have the same effect as one batch. */
  lemma {:induction false} InterruptBatches(interrupted: bool, a: seq<Signal>, b: seq<Signal>)
    ensures var first := InterruptFold(interrupted, a);
      var second := InterruptFold(first.interrupted, b);
      InterruptFold(interrupted, a + b) == InterruptState(second.interrupted, first.shutdownCalls + second.shutdownCalls)
  {
    InterruptOnlyFirst(interrupted, a);
    InterruptOnlyFirst(interrupted, a + b);
    InterruptOnlyFirst(InterruptFold(interrupted, a).interrupted, b);
  }
}

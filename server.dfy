/**
 * The lifecycle coordinator (defaultServer): the configuration the options
 * set, the shutdown flag and signal, the interrupted flag, and the
 * sequential skeleton of New, Listen, Serve, Shutdown, handleShutdown,
 * handleInterrupt and the listener accessors.
 *
 * Listener providers are values; what their Listener() and Serve() calls
 * return is given by the functions `bind` and `serve`. Listener() is
 * memoised by every provider, so one function of the listener describes
 * every call to it.
 */
module Lifecycle {
  import opened Types
  import opened HookComposer
  import opened Options
  import opened Coordination

  class Server {
    // Configuration, set by New and the options.
    var enabledListeners: seq<string>
    var cleanupTimeout: int
    var maxHeaderSize: int
    var handler: Handler
    var adminHandler: Handler
    var callbacks: Option<CompositeHook>
    var logger: Logger
    var hsts: Option<HstsConfig>
    var onShutdown: seq<Callback>
    var listeners: seq<ServerListener>
    var adminListeners: seq<ServerListener>

    // Lifecycle state.
    /** The int32 word Shutdown compares-and-swaps from 0 to 1. */
    var shuttingDown: int
    /** Whether the shutdown channel has been closed. */
    var shutdownClosed: bool
    var interrupted: bool
    /** How many times the shutdown channel was closed. */
    ghost var closeCount: nat
    /** How many times Shutdown was called. */
    ghost var shutdownCalls: nat

    /** The package-level defaults the listener accessors fall back to. */
    const defaults: Globals

    /** The configuration as a value. */
    function Config(): Settings
      reads this
    {
      Settings(enabledListeners, cleanupTimeout, maxHeaderSize, handler, adminHandler,
               callbacks, logger, hsts, onShutdown, listeners, adminListeners)
    }

    /** The shutdown channel is closed exactly when the flag is set, and it was closed once. */
    ghost predicate Valid()
      reads this
    {
      && (shuttingDown == 0 || shuttingDown == 1)
      && (shutdownClosed <==> shuttingDown == 1)
      && closeCount == (if shutdownClosed then 1 else 0)
    }

    /** New: the defaults, then every option in order, then the HSTS wrap. */
    constructor New(g: Globals, opts: seq<ServerOption>)
      ensures Valid()
      ensures Config() == NewSettings(g, opts)
      ensures defaults == g
      ensures shuttingDown == 0 && !shutdownClosed && !interrupted
      ensures closeCount == 0 && shutdownCalls == 0
    {
      defaults := g;
      enabledListeners := g.enabledListeners;
      cleanupTimeout := g.cleanupTimeout;
      maxHeaderSize := g.maxHeaderSize;
      handler := NilHandler;
      adminHandler := g.adminHandler;
      callbacks := None;
      logger := StdLogger;
      hsts := None;
      onShutdown := [];
      listeners := [g.uds, g.http, g.tls];
      adminListeners := [];
      shuttingDown := 0;
      shutdownClosed := false;
      interrupted := false;
      closeCount := 0;
      shutdownCalls := 0;
      new;
      for i := 0 to |opts|
        invariant Config() == ApplyAll(opts[..i], Defaults(g))
        invariant shuttingDown == 0 && !shutdownClosed && !interrupted
        invariant closeCount == 0 && shutdownCalls == 0
      {
        assert opts[..i + 1][..i] == opts[..i];
        Apply(opts[i]);
      }
      assert opts[..|opts|] == opts;
      if hsts.Some? {
        handler := HstsHandler(handler, hsts.value.maxAge, hsts.value.sendPreload);
      }
    }

    /** Runs one option's closure on this server. */
    method Apply(o: ServerOption)
      modifies this`enabledListeners, this`handler, this`adminHandler, this`callbacks, this`logger,
               this`hsts, this`onShutdown, this`listeners, this`adminListeners
      ensures Config() == ApplyOption(o, old(Config()))
    {
      match o
      case SetCallbacks(h) => callbacks := Some(h);
      case SetHandler(h) => handler := h;
      case SetLogger(l) => logger := l;
      case SetSchemes(schemes) => enabledListeners := schemes;
      case SetOnShutdown(handlers) =>
        if |handlers| != 0 {
          onShutdown := handlers;
        }
      case ReplaceListeners(all) => listeners := all;
      case AppendListeners(all) => listeners := listeners + all;
      case AppendAdminListeners(all) => adminListeners := adminListeners + all;
      case SetAdminHandler(h) => adminHandler := h;
      case AppendAdmin(h, all) =>
        adminListeners := adminListeners + all;
        adminHandler := h;
      case SetHsts(c) => hsts := Some(c);
    }

    /** hasScheme: membership in the enabled schemes, which default to ["http"] when none are set. */
    method HasScheme(scheme: string) returns (b: bool)
      ensures b <==> SchemeEnabled(enabledListeners, scheme)
      ensures |enabledListeners| == 0 ==> (b <==> scheme == SchemeHTTP)
      ensures |enabledListeners| > 0 ==> (b <==> scheme in enabledListeners)
    {
      var schemes := enabledListeners;
      if |schemes| == 0 {
        schemes := DefaultSchemes;
      }
      for i := 0 to |schemes|
        invariant forall j :: 0 <= j < i ==> schemes[j] != scheme
      {
        if schemes[i] == scheme {
          return true;
        }
      }
      return false;
    }

    /**
     * Listen: calls Listener() on every primary and then every admin listener
     * whose scheme is enabled, and stops at the first error, which it returns.
     * `bound` is the listeners it called, in order.
     */
    method Listen(bind: ServerListener -> Outcome<Handle>) returns (err: Option<Error>, ghost bound: seq<ServerListener>)
      ensures bound == Attempted(ListenTargets(Config()), bind)
      ensures err == FailureOf(ListenTargets(Config()), bind)
    {
      var all := listeners + adminListeners;
      ghost var handles: seq<Handle> := [];
      bound := [];
      for i := 0 to |all|
        invariant bound == EnabledOnly(enabledListeners, all[..i])
        invariant |handles| == |bound|
        invariant forall j :: 0 <= j < |bound| ==> bind(bound[j]) == Ok(handles[j])
      {
        EnabledStep(enabledListeners, all, i);
        var enabled := HasScheme(all[i].scheme);
        if !enabled {
          continue;
        }
        var r := bind(all[i]);
        if r.Err? {
          ListenStopsAt(enabledListeners, all, i, bind, handles);
          bound := bound + [all[i]];
          err := Some(r.error);
          return;
        }
        bound := bound + [all[i]];
        handles := handles + [r.value];
      }
      assert all[..|all|] == all;
      ListenCompletes(enabledListeners, all, bind, handles);
      err := None;
    }

    /**
     * Serve's sequential skeleton: Listen first; then Serve on every enabled
     * primary listener with the primary configuration and on every admin
     * listener with the admin configuration, keeping each running server in
     * order, and returning the first error at once. `served` is the calls made.
     */
    method Serve(bind: ServerListener -> Outcome<Handle>, serve: ServeCall -> Outcome<Handle>)
      returns (err: Option<Error>, servers: seq<Handle>, ghost bound: seq<ServerListener>, ghost served: seq<ServeCall>)
      ensures FailureOf(ListenTargets(Config()), bind).Some? ==>
        err == FailureOf(ListenTargets(Config()), bind) && servers == []
      ensures FailureOf(ListenTargets(Config()), bind).None? ==>
        err == FailureOf(ServePlan(Config()), serve) && servers == Started(ServePlan(Config()), serve)
      ensures bound == Attempted(ListenTargets(Config()), bind)
      ensures served == if FailureOf(ListenTargets(Config()), bind).Some? then []
                        else Attempted(ServePlan(Config()), serve)
    {
      servers, served := [], [];
      err, bound := Listen(bind);
      if err.Some? {
        return;
      }
      ghost var s := Config();
      for i := 0 to |listeners|
        invariant served == ServeCalls(EnabledOnly(enabledListeners, listeners[..i]), PrimaryConfig(s))
        invariant |servers| == |served|
        invariant forall j :: 0 <= j < |served| ==> serve(served[j]) == Ok(servers[j])
      {
        PrimaryStep(s, i);
        var enabled := HasScheme(listeners[i].scheme);
        if !enabled {
          continue;
        }
        var sc := ServerConfig(maxHeaderSize, logger, handler, callbacks, cleanupTimeout);
        var r := serve(ServeCall(listeners[i], sc));
        if r.Err? {
          PrimaryStopsAt(s, i, served, servers, serve);
          served := served + [ServeCall(listeners[i], sc)];
          err := Some(r.error);
          return;
        }
        served := served + [ServeCall(listeners[i], sc)];
        servers := servers + [r.value];
      }
      assert listeners[..|listeners|] == listeners;
      for i := 0 to |adminListeners|
        invariant served == ServeCalls(EnabledOnly(enabledListeners, listeners), PrimaryConfig(s))
                            + ServeCalls(adminListeners[..i], AdminConfig(s))
        invariant |servers| == |served|
        invariant forall j :: 0 <= j < |served| ==> serve(served[j]) == Ok(servers[j])
      {
        AdminStep(s, i);
        var sc := ServerConfig(maxHeaderSize, logger, adminHandler, None, cleanupTimeout);
        var r := serve(ServeCall(adminListeners[i], sc));
        if r.Err? {
          AdminStopsAt(s, i, served, servers, serve);
          served := served + [ServeCall(adminListeners[i], sc)];
          err := Some(r.error);
          return;
        }
        served := served + [ServeCall(adminListeners[i], sc)];
        servers := servers + [r.value];
      }
      assert adminListeners[..|adminListeners|] == adminListeners;
      ServeCompletes(s, served, servers, serve);
      err := None;
    }

    /** atomic.CompareAndSwapInt32 on the shuttingDown word. */
    method CompareAndSwapShuttingDown(expected: int, desired: int) returns (swapped: bool)
      modifies this`shuttingDown
      ensures swapped == (old(shuttingDown) == expected)
      ensures shuttingDown == if swapped then desired else old(shuttingDown)
    {
      swapped := shuttingDown == expected;
      if swapped {
        shuttingDown := desired;
      }
    }

    /** close(s.shutdown); closing a closed channel would panic. */
    method CloseShutdown()
      requires !shutdownClosed
      modifies this`shutdownClosed, this`closeCount
      ensures shutdownClosed && closeCount == old(closeCount) + 1
    {
      shutdownClosed := true;
      closeCount := closeCount + 1;
    }

    /**
     * Shutdown: the first call moves the flag from 0 to 1 and closes the
     * shutdown channel; later calls change nothing. It always returns nil.
     */
    method Shutdown() returns (err: Option<Error>)
      requires Valid()
      modifies this`shuttingDown, this`shutdownClosed, this`closeCount, this`shutdownCalls
      ensures Valid()
      ensures err == None
      ensures shuttingDown == 1 && shutdownClosed && closeCount == 1
      ensures old(shutdownClosed) ==> shuttingDown == old(shuttingDown) && closeCount == old(closeCount)
      ensures shutdownCalls == old(shutdownCalls) + 1
    {
      shutdownCalls := shutdownCalls + 1;
      var swapped := CompareAndSwapShuttingDown(0, 1);
      if swapped {
        CloseShutdown();
      }
      return None;
    }

    /**
     * handleShutdown after the shutdown channel is closed, given the per-server
     * stop reports in the order they arrive. Every report is received, and the
     * shutdown callbacks run only if every report is a success.
     */
    method HandleShutdown(servers: seq<Handle>, reports: seq<bool>) returns (ran: bool, fired: seq<Callback>, received: nat)
      requires shutdownClosed
      requires |reports| == |servers|
      ensures received == |reports|
      ensures ran <==> forall i :: 0 <= i < |reports| ==> reports[i]
      ensures ran == AndFold(reports)
      ensures fired == if ran then onShutdown else []
    {
      var success := true;
      received := 0;
      for i := 0 to |servers|
        invariant received == i
        invariant success == AndFold(reports[..i])
      {
        assert reports[..i + 1][..i] == reports[..i];
        var ok := reports[i];
        received := received + 1;
        success := success && ok;
      }
      assert reports[..|servers|] == reports;
      AndFoldAll(reports);
      ran := success;
      fired := if ran then onShutdown else [];
    }

    /**
     * handleInterrupt over the delivered signals: the first one, unless the
     * server is already interrupted, sets the flag and calls Shutdown; every
     * other signal is ignored.
     */
    method HandleInterrupt(signals: seq<Signal>)
      requires Valid()
      modifies this`interrupted, this`shuttingDown, this`shutdownClosed, this`closeCount, this`shutdownCalls
      ensures Valid()
      ensures interrupted == InterruptFold(old(interrupted), signals).interrupted
      ensures shutdownCalls == old(shutdownCalls) + InterruptFold(old(interrupted), signals).shutdownCalls
      ensures shutdownClosed == (old(shutdownClosed) || (!old(interrupted) && signals != []))
    {
      for i := 0 to |signals|
        invariant Valid()
        invariant interrupted == InterruptFold(old(interrupted), signals[..i]).interrupted
        invariant shutdownCalls == old(shutdownCalls) + InterruptFold(old(interrupted), signals[..i]).shutdownCalls
        invariant shutdownClosed == (old(shutdownClosed) || (!old(interrupted) && i > 0))
      {
        assert signals[..i + 1][..i] == signals[..i];
        if interrupted {
          continue;
        }
        interrupted := true;
        var _ := Shutdown();
      }
      assert signals[..|signals|] == signals;
    }

    /**
     * The shared rule of the three listener accessors: nil when the default
     * provider's scheme is disabled, else Listener() of the first primary
     * listener with the wanted scheme, else of the default provider.
     */
    method LookupListener(wanted: string, fallback: ServerListener, bind: ServerListener -> Outcome<Handle>)
      returns (r: ListenerLookup)
      ensures IsLookup(Config(), wanted, fallback, bind, r)
    {
      var enabled := HasScheme(fallback.scheme);
      if !enabled {
        return Disabled;
      }
      for i := 0 to |listeners|
        invariant forall j :: 0 <= j < i ==> listeners[j].scheme != wanted
      {
        if listeners[i].scheme == wanted {
          return Found(bind(listeners[i]));
        }
      }
      return Found(bind(fallback));
    }

    method UnixListener(bind: ServerListener -> Outcome<Handle>) returns (r: ListenerLookup)
      ensures IsLookup(Config(), SchemeUnix, defaults.uds, bind, r)
    {
      r := LookupListener(SchemeUnix, defaults.uds, bind);
    }

    method HTTPListener(bind: ServerListener -> Outcome<Handle>) returns (r: ListenerLookup)
      ensures IsLookup(Config(), SchemeHTTP, defaults.http, bind, r)
    {
      r := LookupListener(SchemeHTTP, defaults.http, bind);
    }

    method TLSListener(bind: ServerListener -> Outcome<Handle>) returns (r: ListenerLookup)
      ensures IsLookup(Config(), SchemeHTTPS, defaults.tls, bind, r)
    {
      r := LookupListener(SchemeHTTPS, defaults.tls, bind);
    }
  }
}

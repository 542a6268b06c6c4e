/**
 * Server options and New. A Go Option is a closure that changes fields of the
 * server in place; ServerOption names the change each option constructor's
 * closure makes, and ApplyOption is that change on the Settings view of the
 * server. New starts from the package defaults, applies the options in the
 * order given and then wraps the handler for HSTS if an option asked for it.
 */
module Options {
  import opened Types
  import opened HookComposer

  datatype HstsConfig = HstsConfig(maxAge: int, sendPreload: bool)

  /** The configurable fields of the server (defaultServer without its lifecycle state). */
  datatype Settings = Settings(
    enabledListeners: seq<string>,
    cleanupTimeout: int,
    maxHeaderSize: int,
    handler: Handler,
    adminHandler: Handler,
    callbacks: Option<CompositeHook>,
    logger: Logger,
    hsts: Option<HstsConfig>,
    onShutdown: seq<Callback>,
    listeners: seq<ServerListener>,
    adminListeners: seq<ServerListener>)

  /**
   * The package-level configuration New reads: the flag-bound values and the
   * three default listener providers and the default admin handler.
   */
  datatype Globals = Globals(
    enabledListeners: seq<string>,
    cleanupTimeout: int,
    maxHeaderSize: int,
    uds: ServerListener,
    http: ServerListener,
    tls: ServerListener,
    adminHandler: Handler)

  /** The change an option's closure makes to the server. */
  datatype ServerOption =
    | SetCallbacks(hook: CompositeHook)
    | SetHandler(handler: Handler)
    | SetLogger(logger: Logger)
    | SetSchemes(schemes: seq<string>)
    | SetOnShutdown(handlers: seq<Callback>)
    | ReplaceListeners(listeners: seq<ServerListener>)
    | AppendListeners(listeners: seq<ServerListener>)
    | AppendAdminListeners(listeners: seq<ServerListener>)
    | SetAdminHandler(handler: Handler)
    | AppendAdmin(handler: Handler, listeners: seq<ServerListener>)
    | SetHsts(config: HstsConfig)

  /**
   * The change an option's closure makes. No option touches the timeout or
   * the header limit, and admin listeners are only ever appended to.
   */
  function ApplyOption(o: ServerOption, s: Settings): (r: Settings)
    ensures r.cleanupTimeout == s.cleanupTimeout && r.maxHeaderSize == s.maxHeaderSize
    ensures |s.adminListeners| <= |r.adminListeners|
    ensures forall i :: 0 <= i < |s.adminListeners| ==> r.adminListeners[i] == s.adminListeners[i]
    ensures o.SetOnShutdown? && o.handlers == [] ==> r == s
  {
    match o
    case SetCallbacks(h) => s.(callbacks := Some(h))
    case SetHandler(h) => s.(handler := h)
    case SetLogger(l) => s.(logger := l)
    case SetSchemes(schemes) => s.(enabledListeners := schemes)
    case SetOnShutdown(handlers) => if |handlers| == 0 then s else s.(onShutdown := handlers)
    case ReplaceListeners(all) => s.(listeners := all)
    case AppendListeners(all) => s.(listeners := s.listeners + all)
    case AppendAdminListeners(all) => s.(adminListeners := s.adminListeners + all)
    case SetAdminHandler(h) => s.(adminHandler := h)
    case AppendAdmin(h, all) => s.(adminListeners := s.adminListeners + all, adminHandler := h)
    case SetHsts(c) => s.(hsts := Some(c))
  }

  // The option constructors. Each one's contract is the change its closure
  // makes to any server, and that nothing else changes.

  /** Hooks(hook, extra...): the server's hook becomes a composite of all of them, first argument first. */
  function Hooks(hook: Hook, extra: seq<Hook>): (o: ServerOption)
    ensures forall s :: ApplyOption(o, s) == s.(callbacks := Some(CompositeHook([hook] + extra)))
  {
    SetCallbacks(CompositeHook([hook] + extra))
  }

  function HandlesRequestsWith(h: Handler): (o: ServerOption)
    ensures forall s :: ApplyOption(o, s) == s.(handler := h)
  {
    SetHandler(h)
  }

  function LogsWith(l: Logger): (o: ServerOption)
    ensures forall s :: ApplyOption(o, s) == s.(logger := l)
  {
    SetLogger(l)
  }

  function EnablesSchemes(schemes: seq<string>): (o: ServerOption)
    ensures forall s :: ApplyOption(o, s) == s.(enabledListeners := schemes)
  {
    SetSchemes(schemes)
  }

  /**
   * OnShutdown(handlers...): with no handlers the option does nothing (an
   * earlier callback stays); otherwise the callback becomes running these
   * handlers in order, replacing any earlier one.
   */
  function OnShutdown(handlers: seq<Callback>): (o: ServerOption)
    ensures forall s :: ApplyOption(o, s) == if handlers == [] then s else s.(onShutdown := handlers)
  {
    SetOnShutdown(handlers)
  }

  function WithListeners(listener: ServerListener, extra: seq<ServerListener>): (o: ServerOption)
    ensures forall s :: ApplyOption(o, s) == s.(listeners := [listener] + extra)
  {
    ReplaceListeners([listener] + extra)
  }

  function WithExtraListeners(listener: ServerListener, extra: seq<ServerListener>): (o: ServerOption)
    ensures forall s :: ApplyOption(o, s) == s.(listeners := s.listeners + [listener] + extra)
  {
    AppendListeners([listener] + extra)
  }

  function WithAdminListeners(listener: ServerListener, extra: seq<ServerListener>): (o: ServerOption)
    ensures forall s :: ApplyOption(o, s) == s.(adminListeners := s.adminListeners + [listener] + extra)
  {
    AppendAdminListeners([listener] + extra)
  }

  function HandlesAdminWith(h: Handler): (o: ServerOption)
    ensures forall s :: ApplyOption(o, s) == s.(adminHandler := h)
  {
    SetAdminHandler(h)
  }

  function WithAdmin(h: Handler, listener: ServerListener, extra: seq<ServerListener>): (o: ServerOption)
    ensures forall s :: ApplyOption(o, s)
                        == s.(adminListeners := s.adminListeners + [listener] + extra, adminHandler := h)
  {
    AppendAdmin(h, [listener] + extra)
  }

  /** 126 days, the shortest max-age accepted for the Chrome HSTS preload list. */
  const DefaultHstsMaxAge: int := Hour * 24 * 126

  /**
   * EnableHSTS(maxAge, sendPreload): a zero max-age is replaced by the
   * default at the time the option is built; any other value is kept.
   */
  function EnableHSTS(maxAge: int, sendPreload: bool): (o: ServerOption)
    ensures o.SetHsts? && o.config.sendPreload == sendPreload
    ensures o.config.maxAge != 0
    ensures maxAge != 0 ==> o.config.maxAge == maxAge
    ensures maxAge == 0 ==> o.config.maxAge == DefaultHstsMaxAge
  {
    SetHsts(HstsConfig(if maxAge == 0 then DefaultHstsMaxAge else maxAge, sendPreload))
  }

  /** The server New builds before it applies any option. */
  function Defaults(g: Globals): (r: Settings)
    ensures r.hsts.None? && WrapHsts(r) == r
    ensures r.callbacks.None? && r.adminListeners == [] && r.onShutdown == []
    ensures r.listeners == [g.uds, g.http, g.tls]
    ensures r.enabledListeners == g.enabledListeners && r.adminHandler == g.adminHandler
  {
    Settings(
      enabledListeners := g.enabledListeners,
      cleanupTimeout := g.cleanupTimeout,
      maxHeaderSize := g.maxHeaderSize,
      handler := NilHandler,
      adminHandler := g.adminHandler,
      callbacks := None,
      logger := StdLogger,
      hsts := None,
      onShutdown := [],
      listeners := [g.uds, g.http, g.tls],
      adminListeners := [])
  }

  /** The options applied one after another, in the order given. */
  function ApplyAll(opts: seq<ServerOption>, s: Settings): (r: Settings)
    ensures r.cleanupTimeout == s.cleanupTimeout && r.maxHeaderSize == s.maxHeaderSize
    ensures |s.adminListeners| <= |r.adminListeners|
    ensures forall i :: 0 <= i < |s.adminListeners| ==> r.adminListeners[i] == s.adminListeners[i]
    decreases |opts|
  {
    if opts == [] then s else ApplyOption(opts[|opts| - 1], ApplyAll(opts[..|opts| - 1], s))
  }

  /** The last step of New: an HSTS configuration wraps the handler the options left. */
  function WrapHsts(s: Settings): (r: Settings)
    ensures r.(handler := s.handler) == s
    ensures s.hsts.None? ==> r == s
    ensures s.hsts.Some? ==>
      r.handler == HstsHandler(s.handler, s.hsts.value.maxAge, s.hsts.value.sendPreload)
  {
    match s.hsts
    case None => s
    case Some(c) => s.(handler := HstsHandler(s.handler, c.maxAge, c.sendPreload))
  }

  function NewSettings(g: Globals, opts: seq<ServerOption>): Settings {
    WrapHsts(ApplyAll(opts, Defaults(g)))
  }

  /** Applying a + b is applying a, then applying b to the result. */
  lemma {:induction false} ApplyAllConcat(a: seq<ServerOption>, b: seq<ServerOption>, s: Settings)
    ensures ApplyAll(a + b, s) == ApplyAll(b, ApplyAll(a, s))
    decreases |b|
  {
    if b == [] {
      assert a + b == a;
    } else {
      var n := |b| - 1;
      assert (a + b)[..|a + b| - 1] == a + b[..n];
      assert (a + b)[|a + b| - 1] == b[n];
      ApplyAllConcat(a, b[..n], s);
    }
  }

  // Reference definitions: each field's final value read off the option list
  // from its end, as opposed to ApplyAll's left-to-right application.

  /** The schemes of the last EnablesSchemes, if any. */
  function LastSchemes(opts: seq<ServerOption>, init: seq<string>): seq<string>
    decreases |opts|
  {
    if opts == [] then init
    else if opts[|opts| - 1].SetSchemes? then opts[|opts| - 1].schemes
    else LastSchemes(opts[..|opts| - 1], init)
  }

  /** The listeners: the last replacement, followed by every append made after it. */
  function FinalListeners(opts: seq<ServerOption>, init: seq<ServerListener>): seq<ServerListener>
    decreases |opts|
  {
    if opts == [] then init
    else match opts[|opts| - 1]
      case ReplaceListeners(all) => all
      case AppendListeners(all) => FinalListeners(opts[..|opts| - 1], init) + all
      case _ => FinalListeners(opts[..|opts| - 1], init)
  }

  /** The admin listeners one option adds. */
  function AdminAddedBy(o: ServerOption): seq<ServerListener> {
    match o
    case AppendAdminListeners(all) => all
    case AppendAdmin(_, all) => all
    case _ => []
  }

  /** Every admin listener added by the options, in order. */
  function AdminAdded(opts: seq<ServerOption>): seq<ServerListener>
    decreases |opts|
  {
    if opts == [] then [] else AdminAdded(opts[..|opts| - 1]) + AdminAddedBy(opts[|opts| - 1])
  }

  /** The handlers of the last OnShutdown that was given any. */
  function LastShutdownHandlers(opts: seq<ServerOption>, init: seq<Callback>): seq<Callback>
    decreases |opts|
  {
    if opts == [] then init
    else if opts[|opts| - 1].SetOnShutdown? && opts[|opts| - 1].handlers != [] then opts[|opts| - 1].handlers
    else LastShutdownHandlers(opts[..|opts| - 1], init)
  }

  /** The composite of the last Hooks option; hooks of earlier Hooks options are dropped. */
  function LastHooks(opts: seq<ServerOption>, init: Option<CompositeHook>): Option<CompositeHook>
    decreases |opts|
  {
    if opts == [] then init
    else if opts[|opts| - 1].SetCallbacks? then Some(opts[|opts| - 1].hook)
    else LastHooks(opts[..|opts| - 1], init)
  }

  /** The configuration of the last EnableHSTS, if any. */
  function LastHsts(opts: seq<ServerOption>, init: Option<HstsConfig>): Option<HstsConfig>
    decreases |opts|
  {
    if opts == [] then init
    else if opts[|opts| - 1].SetHsts? then Some(opts[|opts| - 1].config)
    else LastHsts(opts[..|opts| - 1], init)
  }

  /** The last EnablesSchemes wins; without one the configured schemes stay. */
  lemma {:induction false} SchemesLastWins(opts: seq<ServerOption>, s: Settings)
    ensures ApplyAll(opts, s).enabledListeners == LastSchemes(opts, s.enabledListeners)
    decreases |opts|
  {
    if opts != [] {
      SchemesLastWins(opts[..|opts| - 1], s);
    }
  }

  /** WithListeners replaces the listeners; WithExtraListeners appends to what is there at that point. */
  lemma {:induction false} ListenersFromOptions(opts: seq<ServerOption>, s: Settings)
    ensures ApplyAll(opts, s).listeners == FinalListeners(opts, s.listeners)
    decreases |opts|
  {
    if opts != [] {
      ListenersFromOptions(opts[..|opts| - 1], s);
    }
  }

  /** Admin listeners are only ever appended to, in option order. */
  lemma {:induction false} AdminListenersOnlyGrow(opts: seq<ServerOption>, s: Settings)
    ensures ApplyAll(opts, s).adminListeners == s.adminListeners + AdminAdded(opts)
    decreases |opts|
  {
    if opts == [] {
      assert s.adminListeners + [] == s.adminListeners;
    } else {
      var n := |opts| - 1;
      var before := ApplyAll(opts[..n], s);
      AdminListenersOnlyGrow(opts[..n], s);
      AdminStepOf(opts[n], before);
      assert ApplyAll(opts, s) == ApplyOption(opts[n], before);
      assert s.adminListeners + AdminAdded(opts[..n]) + AdminAddedBy(opts[n])
          == s.adminListeners + AdminAdded(opts);
    }
  }

  lemma AdminStepOf(o: ServerOption, s: Settings)
    ensures ApplyOption(o, s).adminListeners == s.adminListeners + AdminAddedBy(o)
  {
  }

  /** An OnShutdown without handlers never clears an earlier one; the last non-empty one wins. */
  lemma {:induction false} ShutdownHandlersLastWins(opts: seq<ServerOption>, s: Settings)
    ensures ApplyAll(opts, s).onShutdown == LastShutdownHandlers(opts, s.onShutdown)
    decreases |opts|
  {
    if opts != [] {
      ShutdownHandlersLastWins(opts[..|opts| - 1], s);
    }
  }

  /** Hooks options do not accumulate: the last one's composite is the server's hook. */
  lemma {:induction false} HooksLastWins(opts: seq<ServerOption>, s: Settings)
    ensures ApplyAll(opts, s).callbacks == LastHooks(opts, s.callbacks)
    decreases |opts|
  {
    if opts != [] {
      HooksLastWins(opts[..|opts| - 1], s);
    }
  }

  lemma {:induction false} HstsLastWins(opts: seq<ServerOption>, s: Settings)
    ensures ApplyAll(opts, s).hsts == LastHsts(opts, s.hsts)
    decreases |opts|
  {
    if opts != [] {
      HstsLastWins(opts[..|opts| - 1], s);
    }
  }

  /**
   * New: the handler is wrapped for HSTS exactly when some EnableHSTS option
   * was given, once, with the last such option's settings, around the handler
   * the options chose; without one, New leaves the listeners it starts from
   * as the three default providers unless a listener option changes them.
   */
  lemma NewHandler(g: Globals, opts: seq<ServerOption>)
    ensures var s := ApplyAll(opts, Defaults(g));
      && (LastHsts(opts, None).None? ==> NewSettings(g, opts).handler == s.handler)
      && (LastHsts(opts, None).Some? ==>
            var c := LastHsts(opts, None).value;
            NewSettings(g, opts).handler == HstsHandler(s.handler, c.maxAge, c.sendPreload))
    ensures NewSettings(g, opts).listeners == FinalListeners(opts, [g.uds, g.http, g.tls])
    ensures NewSettings(g, opts).adminListeners == AdminAdded(opts)
  {
    HstsLastWins(opts, Defaults(g));
    ListenersFromOptions(opts, Defaults(g));
    AdminListenersOnlyGrow(opts, Defaults(g));
    assert [] + AdminAdded(opts) == AdminAdded(opts);
  }
}

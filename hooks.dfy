/**
 * The hook composer (compositeHook): one Hook that fans each lifecycle
 * callback out to the registered hooks, in registration order, on the same
 * mutable object, so that every hook sees what the earlier ones changed.
 *
 * A *tls.Config and an *http.Server are modelled as objects whose fields
 * are a map from field name to value; a Hook is a pair of transformers of
 * those fields.
 */
module HookComposer {

  type Fields = map<string, string>

  /** The Hook interface: ConfigureTLS(*tls.Config) and ConfigureListener(*http.Server, scheme, addr). */
  datatype Hook = Hook(
    configureTLS: Fields -> Fields,
    configureListener: (Fields, string, string) -> Fields)

  datatype CompositeHook = CompositeHook(hooks: seq<Hook>)

  /** A *tls.Config under construction. */
  class TlsConfig {
    var fields: Fields

    constructor (initial: Fields)
      ensures fields == initial
    {
      fields := initial;
    }
  }

  /** An *http.Server before it starts serving. */
  class HttpServer {
    var fields: Fields

    constructor (initial: Fields)
      ensures fields == initial
    {
      fields := initial;
    }
  }

  /** The TLS fields after the hooks ran on them one after another, first hook first. */
  function RunTlsHooks(hooks: seq<Hook>, f: Fields): Fields
    decreases |hooks|
  {
    if hooks == [] then f else RunTlsHooks(hooks[1..], hooks[0].configureTLS(f))
  }

  /** The server fields after the hooks ran on them one after another, first hook first. */
  function RunListenerHooks(hooks: seq<Hook>, f: Fields, scheme: string, addr: string): Fields
    decreases |hooks|
  {
    if hooks == [] then f
    else RunListenerHooks(hooks[1..], hooks[0].configureListener(f, scheme, addr), scheme, addr)
  }

  /** Running a + b is running a, then running b on what a left. */
  lemma {:induction false} RunTlsHooksConcat(a: seq<Hook>, b: seq<Hook>, f: Fields)
    ensures RunTlsHooks(a + b, f) == RunTlsHooks(b, RunTlsHooks(a, f))
    decreases |a|
  {
    if a == [] {
      assert a + b == b;
    } else {
      assert (a + b)[1..] == a[1..] + b;
      RunTlsHooksConcat(a[1..], b, a[0].configureTLS(f));
    }
  }

  lemma {:induction false} RunListenerHooksConcat(a: seq<Hook>, b: seq<Hook>, f: Fields, scheme: string, addr: string)
    ensures RunListenerHooks(a + b, f, scheme, addr)
         == RunListenerHooks(b, RunListenerHooks(a, f, scheme, addr), scheme, addr)
    decreases |a|
  {
    if a == [] {
      assert a + b == b;
    } else {
      assert (a + b)[1..] == a[1..] + b;
      RunListenerHooksConcat(a[1..], b, a[0].configureListener(f, scheme, addr), scheme, addr);
    }
  }

  /**
   * The hooks registered through Hooks(hook, extra...) run the first argument
   * before the extras and each later hook on the fields the earlier one left:
   * the last hook has the final word.
   */
  lemma LastTlsHookDecides(hook: Hook, extra: seq<Hook>, f: Fields)
    ensures RunTlsHooks([hook] + extra, f) == RunTlsHooks(extra, hook.configureTLS(f))
    ensures extra != [] ==>
      RunTlsHooks([hook] + extra, f)
      == extra[|extra| - 1].configureTLS(RunTlsHooks([hook] + extra[..|extra| - 1], f))
  {
    assert ([hook] + extra)[1..] == extra;
    if extra != [] {
      var n := |extra| - 1;
      assert [hook] + extra == ([hook] + extra[..n]) + [extra[n]];
      RunTlsHooksConcat([hook] + extra[..n], [extra[n]], f);
    }
  }

  /** compositeHook.ConfigureTLS: every hook, in order, on the same config object. */
  method ConfigureTLS(c: CompositeHook, cfg: TlsConfig)
    modifies cfg
    ensures cfg.fields == RunTlsHooks(c.hooks, old(cfg.fields))
  {
    for i := 0 to |c.hooks|
      invariant cfg.fields == RunTlsHooks(c.hooks[..i], old(cfg.fields))
    {
      RunTlsHooksConcat(c.hooks[..i], [c.hooks[i]], old(cfg.fields));
      assert c.hooks[..i + 1] == c.hooks[..i] + [c.hooks[i]];
      cfg.fields := c.hooks[i].configureTLS(cfg.fields);
    }
    assert c.hooks[..|c.hooks|] == c.hooks;
  }

  /** compositeHook.ConfigureListener: every hook, in order, on the same server object. */
  method ConfigureListener(c: CompositeHook, srv: HttpServer, scheme: string, addr: string)
    modifies srv
    ensures srv.fields == RunListenerHooks(c.hooks, old(srv.fields), scheme, addr)
  {
    for i := 0 to |c.hooks|
      invariant srv.fields == RunListenerHooks(c.hooks[..i], old(srv.fields), scheme, addr)
    {
      RunListenerHooksConcat(c.hooks[..i], [c.hooks[i]], old(srv.fields), scheme, addr);
      assert c.hooks[..i + 1] == c.hooks[..i] + [c.hooks[i]];
      srv.fields := c.hooks[i].configureListener(srv.fields, scheme, addr);
    }
    assert c.hooks[..|c.hooks|] == c.hooks;
  }
}

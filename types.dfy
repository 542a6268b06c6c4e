/**
 * Values shared by the whole model of the server lifecycle coordinator:
 * nil-able values, the outcome of a call into a listener provider, and the
 * opaque handles that stand for Go library objects (net.Listener,
 * *http.Server, http.Handler, logr.Logger).
 */
module Types {

  /** A Go value that may be nil. */
  datatype Option<+T> = None | Some(value: T)

  /** What a provider call returns: a handle, or the error it reported. */
  datatype Outcome<+T> = Ok(value: T) | Err(error: Error)

  /** An error returned by a listener provider; its content is not inspected. */
  datatype Error = Error(code: nat)

  /** A bound net.Listener or a running *http.Server. */
  datatype Handle = Handle(id: nat)

  /**
   * A request handler. The coordinator only stores and forwards handlers; the
   * one thing it does to them is wrap the main handler in an HSTS handler.
   */
  datatype Handler =
    | NilHandler
    | Handler(id: nat)
    | HstsHandler(inner: Handler, maxAge: int, sendPreload: bool)

  /** The logger given to the servers: the built-in standard logger or a user one. */
  datatype Logger = StdLogger | Logger(id: nat)

  /** A function registered with OnShutdown. */
  datatype Callback = Callback(id: nat)

  /** The process signals the server subscribes to. */
  datatype Signal = SIGINT | SIGTERM

  /**
   * A configured listener provider (ServerListener): an identity and the
   * scheme it reports from Scheme().
   */
  datatype ServerListener = ServerListener(id: nat, scheme: string)

  const SchemeHTTP: string := "http"
  const SchemeHTTPS: string := "https"
  const SchemeUnix: string := "unix"

  /** The schemes enabled when none are configured. */
  const DefaultSchemes: seq<string> := [SchemeHTTP]

  /** time.Duration is a count of nanoseconds. */
  const Hour: int := 3_600_000_000_000
}

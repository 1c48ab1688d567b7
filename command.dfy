/**
 * The `rundbg` management command around the debugger proxy: which request
 * environ the server hands to the application, how the command's options
 * become server settings, the process-environment flags it sets, and how a
 * bind failure or an interrupt becomes a message and an exit code.
 */
module RunDbgCommand {

  import opened Wrappers
  import Debugger

  // ---------------------------------------------------------------------------
  // The request environ.

  const ShutdownKey := "werkzeug.server.shutdown"

  /** The environ handed on, or the `KeyError` that `del` raises for a missing key. */
  datatype EnvironResult<V> = Environ(entries: map<string, V>) | RaisesKeyError(key: string)

  /**
   * `WSGIRequestHandler.make_environ`: unless the shutdown function is to be
   * kept, delete exactly its key from the environ built by the server.
   */
  method MakeEnviron<V>(built: map<string, V>, keepMetaShutdownFunc: bool) returns (r: EnvironResult<V>)
    ensures keepMetaShutdownFunc ==> r == Environ(built)
    ensures !keepMetaShutdownFunc && ShutdownKey !in built ==> r == RaisesKeyError(ShutdownKey)
    ensures !keepMetaShutdownFunc && ShutdownKey in built ==>
      && r.Environ?
      && r.entries.Keys == built.Keys - {ShutdownKey}
      && forall k :: k in r.entries ==> r.entries[k] == built[k]
  {
    var environ := built;
    if !keepMetaShutdownFunc {
      if ShutdownKey !in environ {
        return RaisesKeyError(ShutdownKey);
      }
      environ := environ - {ShutdownKey};
    }
    return Environ(environ);
  }

  // ---------------------------------------------------------------------------
  // Options and settings.

  const DefaultReloaderInterval := 2

  /**
   * The command's options dictionary; `None` is a key that is absent. The
   * link-mode switch is stored under the key `'use-link'`.
   */
  datatype Options = Options(
    useReloader: Option<bool>,
    reloaderInterval: Option<int>,
    keepMetaShutdownFunc: Option<bool>,
    useLinkFlag: Option<bool>,
    shutdownMessage: Option<string>)

  /**
   * `add_arguments`: the parser always fills the three options this command
   * adds: `--reloader-interval` (default 2) and the two `store_true` flags.
   */
  function ParseAddedArguments(rest: Options, reloaderInterval: Option<int>, keepMetaShutdown: bool, useLink: bool)
    : (o: Options)
    ensures o.reloaderInterval.Some?
    ensures reloaderInterval.Some? ==> o.reloaderInterval == reloaderInterval
    ensures reloaderInterval.None? ==> o.reloaderInterval == Some(DefaultReloaderInterval)
    ensures o.keepMetaShutdownFunc == Some(keepMetaShutdown) && o.useLinkFlag == Some(useLink)
    ensures o.useReloader == rest.useReloader && o.shutdownMessage == rest.shutdownMessage
  {
    rest.(reloaderInterval := Some(reloaderInterval.GetOr(DefaultReloaderInterval)),
          keepMetaShutdownFunc := Some(keepMetaShutdown),
          useLinkFlag := Some(useLink))
  }

  /** What `run` reads from the options, and how it builds the proxy. */
  datatype Settings = Settings(
    useReloader: bool,
    reloaderInterval: int,
    keepMetaShutdownFunc: bool,
    shutdownMessage: string,
    handlerUseLink: bool,
    handlerEvalex: bool)

  /** The option reads of `run`, with their fall-back values. */
  function ReadSettings(o: Options): (s: Settings)
    ensures s.handlerUseLink && s.handlerEvalex
    ensures o.useReloader.None? ==> s.useReloader
    ensures o.useReloader.Some? ==> s.useReloader == o.useReloader.value
    ensures o.reloaderInterval.None? ==> s.reloaderInterval == DefaultReloaderInterval
    ensures o.reloaderInterval.Some? ==> s.reloaderInterval == o.reloaderInterval.value
    ensures o.keepMetaShutdownFunc.None? ==> !s.keepMetaShutdownFunc
    ensures o.keepMetaShutdownFunc.Some? ==> s.keepMetaShutdownFunc == o.keepMetaShutdownFunc.value
    ensures o.shutdownMessage.None? ==> s.shutdownMessage == ""
    ensures o.shutdownMessage.Some? ==> s.shutdownMessage == o.shutdownMessage.value
  {
    Settings(
      o.useReloader.GetOr(true),
      o.reloaderInterval.GetOr(DefaultReloaderInterval),
      o.keepMetaShutdownFunc.GetOr(false),
      o.shutdownMessage.GetOr(""),
      true,
      true)
  }

  /**
   * The proxy is always built in link mode with evaluation on, whatever the
   * `--use-link` flag says: the switch is stored and never read.
   */
  lemma UseLinkFlagIgnored(o: Options, flag: Option<bool>)
    ensures ReadSettings(o.(useLinkFlag := flag)) == ReadSettings(o)
    ensures ReadSettings(o).handlerUseLink && ReadSettings(o).handlerEvalex
  {
  }

  /**
   * From the command line to the server: the poll interval is the one given
   * to `--reloader-interval`, else 2, and the shutdown function is kept
   * exactly when `--keep-meta-shutdown` is given.
   */
  lemma ParsedOptionsReachSettings(o: Options, given: Option<int>, keepMetaShutdown: bool, useLink: bool)
    ensures var s := ReadSettings(ParseAddedArguments(o, given, keepMetaShutdown, useLink));
      && s.reloaderInterval == given.GetOr(2)
      && s.keepMetaShutdownFunc == keepMetaShutdown
  {
  }

  // ---------------------------------------------------------------------------
  // The process environment.

  const RunMainVar := "WERKZEUG_RUN_MAIN"
  const DebugPinVar := "WERKZEUG_DEBUG_PIN"

  /** `os.environ`. */
  class ProcessEnv {
    var vars: map<string, string>

    constructor (vars: map<string, string>)
      ensures this.vars == vars
    {
      this.vars := vars;
    }

    /**
     * Mark this process as the serving one when there is no reloader, and
     * switch the PIN prompt off; every other variable is left alone.
     */
    method SetServerFlags(useReloader: bool)
      modifies this
      ensures !useReloader ==> Get(vars, RunMainVar) == Some("true")
      ensures useReloader ==> Get(vars, RunMainVar) == Get(old(vars), RunMainVar)
      ensures Get(vars, DebugPinVar) == Some("off")
      ensures forall k :: k != RunMainVar && k != DebugPinVar ==> Get(vars, k) == Get(old(vars), k)
    {
      if !useReloader {
        vars := vars[RunMainVar := "true"];
      }
      vars := vars[DebugPinVar := "off"];
    }
  }

  // ---------------------------------------------------------------------------
  // Bind failures and interrupts.

  /** The Linux values of the three socket errors the command explains. */
  const EACCES := 13
  const EADDRINUSE := 98
  const EADDRNOTAVAIL := 99

  /** The `ERRORS` table. */
  const Errors: map<int, string> := map[
    EACCES := "You don't have permission to access that port.",
    EADDRINUSE := "That port is already in use.",
    EADDRNOTAVAIL := "That IP address can't be assigned to."]

  /**
   * The message for a socket error with `errno` (`None`: the error has
   * none) whose own text is `raw`: the table's entry, else the raw text.
   */
  function ErrorText(errno: Option<int>, raw: string): (text: string)
    ensures errno == Some(EACCES) ==> text == "You don't have permission to access that port."
    ensures errno == Some(EADDRINUSE) ==> text == "That port is already in use."
    ensures errno == Some(EADDRNOTAVAIL) ==> text == "That IP address can't be assigned to."
    ensures errno !in {Some(EACCES), Some(EADDRINUSE), Some(EADDRNOTAVAIL)} ==> text == raw
  {
    match errno
    case Some(e) => if e in Errors then Errors[e] else raw
    case None => raw
  }

  /** How the server run ended. */
  datatype ServeEnd = Returned | SocketError(errno: Option<int>, text: string) | Interrupted

  /** What the command then does: return normally, or exit with a code after writing its lines. */
  datatype RunEnd = Finished | Exit(code: int, stdout: seq<string>, stderr: seq<string>)

  /**
   * A bind failure writes `"Error: "` and its message to stderr and exits
   * with 1; an interrupt exits with 0, writing the shutdown message only when
   * it is non-empty.
   */
  function RunExit(end: ServeEnd, shutdownMessage: string): (r: RunEnd)
    ensures end.Returned? <==> r.Finished?
    ensures end.SocketError? ==> r == Exit(1, [], ["Error: " + ErrorText(end.errno, end.text)])
    ensures end.Interrupted? ==>
      && r.Exit? && r.code == 0 && r.stderr == []
      && r.stdout == (if shutdownMessage == "" then [] else [shutdownMessage])
  {
    match end
    case Returned => Finished
    case SocketError(errno, text) => Exit(1, [], ["Error: " + ErrorText(errno, text)])
    case Interrupted => Exit(0, if shutdownMessage != "" then [shutdownMessage] else [], [])
  }

  /**
   * `run`: read the options, build the proxy (always in link mode, with
   * evaluation on), set the process flags, and turn the end of the server
   * run into an exit.
   */
  method Run(o: Options, env: ProcessEnv, secret: string, served: ServeEnd)
    returns (handler: Debugger.DebuggedApp, end: RunEnd)
    modifies env
    ensures fresh(handler)
    ensures handler.cfg == Debugger.Config(Some(Debugger.DefaultDebuggerPath), true, secret, true)
    ensures handler.frames == map[] && handler.tracebacks == map[]
    ensures Get(env.vars, DebugPinVar) == Some("off")
    ensures ReadSettings(o).useReloader ==> Get(env.vars, RunMainVar) == Get(old(env.vars), RunMainVar)
    ensures !ReadSettings(o).useReloader ==> Get(env.vars, RunMainVar) == Some("true")
    ensures forall k :: k != RunMainVar && k != DebugPinVar ==> Get(env.vars, k) == Get(old(env.vars), k)
    ensures end == RunExit(served, ReadSettings(o).shutdownMessage)
  {
    var settings := ReadSettings(o);
    handler := new Debugger.DebuggedApp(None, Some(settings.handlerUseLink), secret, settings.handlerEvalex);
    env.SetServerFlags(settings.useReloader);
    end := RunExit(served, settings.shutdownMessage);
  }
}

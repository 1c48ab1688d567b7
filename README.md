# django-rundbg debugger proxy, modelled in Dafny

`django-rundbg` is a Django management command, `rundbg`, that serves the project through
Werkzeug's development server with Werkzeug's in-browser debugger in front of it. Its core is
`RunDbgDebuggedApplication`, a proxy placed in front of Werkzeug's `DebuggedApplication`. For
each request the proxy does one of three things:

- it replays the interactive console of a stored capture;
- it runs the wrapped application and streams its body unchanged;
- if the application raises an ordinary exception (one deriving from `Exception`), it
  captures it. Every frame goes into the `frames` store and the traceback into the
  `tracebacks` store, both keyed by id. The answer is a 500 with either Werkzeug's full
  console or a short page linking to `<debugger path>?s=<secret>&tb=<id>`. `SystemExit`,
  `KeyboardInterrupt` and `GeneratorExit` pass through uncaptured.

The command strips `werkzeug.server.shutdown` from every request environ unless
`--keep-meta-shutdown` is given. It sets two process-environment flags and turns bind failures and interrupts into a message and an exit code.

The project has five files, one module each:

- `wrappers.dfy`: `Option`, and `Get` for `dict.get`.
- `pytext.dfy`: the Python text operations the proxy relies on. These are HTML escaping,
  `'%d' % n`, `int(s)` on query text, `"".join`, and substring containment.
- `tracebacks.dfy`: the interpreter's traceback chain as an immutable linked class (`TbNode`).
  It also holds the debugger's `Frame` and `Traceback` records, the bounded `skip` walk,
  `get_current_traceback` and `render_link` with the `LINK_HTML` template.
- `debugger.dfy`: the dispatch decision `Route`, `get_debugger_path`, and the frame-store update
  as a value (`RegisterFrames`). Class `DebuggedApp` holds the two maps as fields, with
  `DebugApplication`, `DebuggerConsole` and `Call`.
- `command.dfy`: `make_environ`, how options are read and given defaults, the
  `os.environ` flags, the `ERRORS` table and the exit codes.

Inputs the proxy cannot see are parameters:

- whether `start_response` raises (`startResponseOk`);
- the result of `check_pin_trust` (`pinTrusted`);
- the traceback's object identity (`tbId`);
- the process secret;
- what the wrapped application yields and whether it raises (`AppRun`).

Werkzeug's `render_full` and `traceback.log` are kept symbolic: as the body item `FullPage` and
the error-stream write `TracebackLog`.

The model follows the code wherever the code differs from the documented behaviour of the
command:

- **Replay needs link mode.** Replay happens only when link mode is on and the request does not
  carry `__debugger__=yes`.
- **`--use-link` is never read.** The option is stored under the key `'use-link'`, but the
  command always builds the proxy with `use_link=True` and `evalex=True`.
- **The Host prefix has no scheme.** With a Host header, the link target is the Host value
  followed directly by the path, so the link does not lead back to the console (see
  "## Findings").
- **A `None` console path.** Host plus `None` raises `TypeError`, which leaves the proxy. Without a
  Host header, `None` is rendered as the text `None`.

## Model

| member | source | states |
|---|---|---|
| `Tracebacks.Skip` | django_rundbg/werkzeug_patch.py:53-56 | Follows at most `skip` links and stops at the innermost node. It returns node number `min(max(skip, 0), len - 1)` of the chain and never `None`. |
| `Tracebacks.GetCurrentTraceback` | django_rundbg/werkzeug_patch.py:43-60 | A system-level exception is re-raised when system exceptions are to be ignored. Otherwise the capture has the given id, the exception's type and text, and exactly the frames of the chain from node `skip` on, in order. |
| `Tracebacks.TbNode.Frames` | django_rundbg/werkzeug_patch.py:57 | The traceback built from a chain has one frame per node, outermost first. |
| `Tracebacks.FramesFrom` | django_rundbg/werkzeug_patch.py:53-57 | Starting the capture at node `k` keeps exactly the tail of the whole stack from position `k`. |
| `Tracebacks.RenderLinkShows` | django_rundbg/werkzeug_patch.py:11-40 | The link page holds `path?s=secret&tb=id` twice: as the "Inspect at" text and as the `href`. It also shows the escaped exception type in the `h1` and the escaped exception text in a paragraph. |
| `PyText.UnescapeEscape` | django_rundbg/werkzeug_patch.py:33-36 | Escaping the exception type and message loses nothing: decoding the entities gives back the original text. |
| `PyText.EscapeHasNoMarkup` | django_rundbg/werkzeug_patch.py:33-36 | Escaped exception text contains no `<`, `>` or `"`, so it cannot open a tag on the link page. |
| `PyText.ParseIntOfIntToString` | django_rundbg/werkzeug_patch.py:180 | An id written with `%d` into the link is read back by `int(...)` as the same id. |
| `PyText.IntToStringInjective` | django_rundbg/werkzeug_patch.py:15-16 | Distinct capture ids give distinct link texts. |
| `Debugger.Route` | django_rundbg/werkzeug_patch.py:175-186 | Replays iff all six conditions hold: `__debugger__` is not `yes`, the console path is set and equals the request path, link mode is on, `s` equals the secret, and `tb` parses as an int that is a stored id. The replayed capture is the one stored under that id. A request that fails any condition (wrong or missing secret, unknown or non-integer `tb`, link mode off) is delegated and never answered with an error. |
| `Debugger.GetDebuggerPath` | django_rundbg/werkzeug_patch.py:79-85 | Gives Host header + console path when the Host header is non-empty, and the console path alone otherwise. A `None` path with a Host header raises `TypeError`. |
| `Debugger.RegisterFrames` | django_rundbg/werkzeug_patch.py:105-106 | After registering a capture's frames, the store's keys are the old keys plus the capture's frame ids. |
| `Debugger.RegisterFramesKeeps` | django_rundbg/werkzeug_patch.py:105-106 | A key that is not one of the capture's frame ids keeps its old frame. |
| `Debugger.RegisterFramesFinds` | django_rundbg/werkzeug_patch.py:105-106 | When frame ids are distinct, each registered frame is found under its own id. |
| `Debugger.RegisterFramesStore` | django_rundbg/werkzeug_patch.py:105-107 | The whole store update at once: every frame is under its id, the keys grow by exactly the capture's ids, and every other key is unchanged. |
| `Debugger.SecondCaptureKeepsFirst` | django_rundbg/werkzeug_patch.py:103-107 | Two captures with disjoint frame ids do not cross-contaminate: after the second, every frame of the first is still under its id. |
| `Debugger.DebuggedApp.constructor` | django_rundbg/werkzeug_patch.py:74-77 | `debugger_path` defaults to `'/dbg-console'` and `use_link` to `False`. The secret and `evalex` are kept, and both stores start empty. |
| `Debugger.DebuggedApp.Register` | django_rundbg/werkzeug_patch.py:105-107 | Each frame goes into `frames` under its id. Then the traceback goes into `tracebacks` under its id, and no other key of either map changes. |
| `Debugger.DebuggedApp.ErrorResponse` | django_rundbg/werkzeug_patch.py:109-135 | The items already streamed come first. If `start_response` fails, there is no body and the fixed notice plus the traceback log go to `wsgi.errors`. Otherwise the status is `500 INTERNAL SERVER ERROR` with the two debug headers. The body is then the link page for `get_debugger_path` in link mode, or the full console otherwise. |
| `Debugger.DebuggedApp.DebugApplication` | django_rundbg/werkzeug_patch.py:93-137 | If the application does not raise, the response is exactly its items, in order, and the store is unchanged. A system-level exception passes through uncaught with the store unchanged. For an ordinary exception, the capture skips one frame and is registered; the answer is as `ErrorResponse` describes. |
| `Debugger.DebuggedApp.DebuggerConsole` | django_rundbg/werkzeug_patch.py:139-165 | The status is `200 OK` with `Content-Type: text/html; charset=utf-8` and `X-XSS-Protection: 0`, and the body is the full console of the capture. If `start_response` fails, only the notice is written. The traceback is logged either way, and the store is only read. |
| `Debugger.DebuggedApp.Call` | django_rundbg/werkzeug_patch.py:167-186 | Answers with the console of the capture stored under `tb` exactly when `Route` replays. Otherwise it hands the request to the parent middleware. |
| `Debugger.LinkReachesConsole` | django_rundbg/werkzeug_patch.py:79-85 | For a request without a (non-empty) Host header, the rendered link target is the console path plus a query carrying the secret as `s` and the id as `tb`. Once the capture is stored, a request to that path with those arguments replays that capture. |
| `Debugger.IntendedDebuggerPath` | django_rundbg/werkzeug_patch.py:79-85 | The corrected console path for the link: the bare console path for every Host header. Where the Host header is missing or empty it agrees with `get_debugger_path`. |
| `Debugger.IntendedLinkReachesConsole` | django_rundbg/werkzeug_patch.py:79-182 | With the corrected console path, for every Host header, the link target is the console path plus a query carrying the secret as `s` and the id as `tb`. Once the capture is stored, a request to that path with those arguments replays that capture. |
| `Debugger.HostPrefixedLinkMissesConsole` | django_rundbg/werkzeug_patch.py:79-85 | With a non-empty Host header `h`, the rendered link target is `h` followed directly by the console path and query. A request whose path ends in `h` plus the console path is handed on, not replayed. |
| `Debugger.CaptureThenReplay` | django_rundbg/werkzeug_patch.py:103-182 | For a raising request without a Host header in link mode: the first answer is the 500 link page for the capture. The returned follow-up request has exactly the path and `s`/`tb` arguments of that page's link target, it routes to the console of the same capture, and it is answered with that 200 console. |
| `RunDbgCommand.MakeEnviron` | django_rundbg/management/commands/rundbg.py:62-66 | When the function is not kept, exactly the key `werkzeug.server.shutdown` is removed and every other key and value is unchanged. `KeyError` is raised when that key is missing. When the function is kept, the environ is unchanged. |
| `RunDbgCommand.ParseAddedArguments` | django_rundbg/management/commands/rundbg.py:25-48 | The parser always fills the three added options. A given `--reloader-interval` is kept and 2 is used when none is given. The two flags are stored as given, and the other options are untouched. |
| `RunDbgCommand.ReadSettings` | django_rundbg/management/commands/rundbg.py:64-96 | A present option is read as given. An absent one gets its fall-back: reloader on, interval 2, shutdown function not kept, empty shutdown message. The proxy is always built with link mode and evaluation on. |
| `RunDbgCommand.UseLinkFlagIgnored` | django_rundbg/management/commands/rundbg.py:43-96 | Changing the `--use-link` option changes no setting, and the proxy is built in link mode either way. |
| `RunDbgCommand.ParsedOptionsReachSettings` | django_rundbg/management/commands/rundbg.py:28-93 | From the command line to the server: the poll interval is the one given to `--reloader-interval`, else 2. The shutdown function is kept exactly when `--keep-meta-shutdown` is given. |
| `RunDbgCommand.ProcessEnv.SetServerFlags` | django_rundbg/management/commands/rundbg.py:101-104 | `WERKZEUG_RUN_MAIN` is set to `'true'` only when the reloader is off and is untouched otherwise. `WERKZEUG_DEBUG_PIN` is always `'off'`, and no other variable changes. |
| `RunDbgCommand.ErrorText` | django_rundbg/management/commands/rundbg.py:117-125 | `EACCES`, `EADDRINUSE` and `EADDRNOTAVAIL` get their three fixed messages. Any other errno, or none, gives the raw error text. |
| `RunDbgCommand.RunExit` | django_rundbg/management/commands/rundbg.py:115-132 | A bind failure writes `Error: ` plus the message to stderr and exits with 1. An interrupt exits with 0 and writes the shutdown message only if it is non-empty. A normal return exits with nothing. |
| `RunDbgCommand.Run` | django_rundbg/management/commands/rundbg.py:91-132 | Builds the proxy with the default console path, link mode, evaluation on and empty stores. It sets the two process flags as `SetServerFlags` says, leaves every other variable unchanged, and turns the end of the server run into `RunExit`. |

## Left out

- Werkzeug's `DebuggedApplication.__call__`, which handles delegated requests: not part of this model. `Call` returns `None` for "delegated". `DebugApplication` is modelled on its own, as the method the parent runs for ordinary requests.
- Werkzeug's `render_full`, `traceback.log` and `check_pin_trust`: their code is not part of this model. They are represented by the `FullPage` item, the `TracebackLog` write and the `pinTrusted` parameter.
- Werkzeug's `Traceback` and `Frame` construction: not part of this model. Each chain node carries the debugger frame it becomes. The traceback id and frame ids are Python object identities, supplied as data. Their distinctness is a precondition of the lemmas that need it, not a theorem.
- Werkzeug's `filter_hidden_frames` (the `show_hidden_frames` option): not part of this model. `GetCurrentTraceback` keeps every frame after the skipped one.
- Which exceptions count as system exceptions: reduced to the `Ordinary`/`SystemLevel` split. `SystemLevel` means classes outside `Exception`, which `except Exception` does not catch.
- Python generator mechanics and `app_iter.close()`: the application's run is the sequence of items it yields, optionally followed by one exception. The application's own `start_response` calls are not modelled. Whether the proxy's `start_response` raises is a parameter.
- Byte encoding of the rendered pages (`encode('utf-8', 'replace')`) and the `logger.debug` call.
- `PyText.Escape`: Werkzeug's `escape` is not part of this model. It is modelled as replacing `&`, `<`, `>` and `"` with entities. Objects with an `__html__` method are not modelled.
- `PyText.ParseInt`: accepts ASCII whitespace, an optional sign and ASCII digits. It does not accept the underscores between digits or the non-ASCII digits and spaces that Python 3's `int` also accepts. It also has no length limit: Python 3.11 and later (and the security releases 3.7.14, 3.8.14, 3.9.14 and 3.10.7) raise `ValueError` on a decimal string of more than 4300 digits, leading zeros included, so there a `tb` argument that long is handed on while the model can replay it.
- Query-string and path decoding by Werkzeug's request object: a `Request` is already the decoded path, the first value of each argument, and the Host header. The link lemmas read the target `path?s=<secret>&tb=<id>` as the request with `s` and `tb` set to those values. That reading holds for the letters-and-digits secret Werkzeug generates. A secret containing `&`, `=`, `#` or `%` would split or decode differently, and the model does not cover that case.
- `ConcatTypeError` carries the message text of Python 3.7 and later; Python 3.0 to 3.6 and Python 2 word it differently.
- `RunDbgCommand.ErrorText`: errno values are the Linux ones (13, 98, 99); other platforms number them differently.
- Django's output wrapper (line endings, styling) on `stdout`/`stderr`.
- `run_simple`, sockets, the reloader, the `use_threading` option, `os._exit` and `sys.exit` themselves. Only the resulting exit code and written lines are modelled.
- Other exceptions escaping `run_simple`.
- The `ImportError` to `CommandError` path (rundbg.py:51-58), the system and migration checks, the startup banner and `quit_command` (rundbg.py:71-89 and 92).
- Concurrent requests sharing the store. The model is sequential.
- `setup.py`: packaging metadata.
- How a browser resolves the host-prefixed link: `HostPrefixedLinkMissesConsole` covers any resolved path ending in the link's path. A scheme-like Host value such as `localhost:8000` is not followed to this server at all.

## Findings

| source | as written | input that shows it | evidently intended | confidence | as-written member | corrected member |
|---|---|---|---|---|---|---|
| django_rundbg/werkzeug_patch.py:79-85, 130-131 | `get_debugger_path` returns the Host header glued to the console path, with no scheme or `//`, and `render_link` puts that into the `href` | Host `127.0.0.1:8000`, default path: the href is `127.0.0.1:8000/dbg-console?s=…&tb=…`, a relative path whose request path is not `/dbg-console`, so the request is handed on; with Host `localhost:8000` the href reads as scheme `localhost:` | the link leads to the console path on this server, as it does without a Host header | medium, not executed | `Debugger.HostPrefixedLinkMissesConsole` | `Debugger.IntendedLinkReachesConsole` (on `Debugger.IntendedDebuggerPath`) |

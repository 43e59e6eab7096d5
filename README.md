# simplessh core, modelled in Dafny

simplessh is a desktop SSH/SFTP client. Its Python backend runs a Flask and
Socket.IO server and its Vue front end talks to that server. This project
models three core pieces of it and proves properties about them:

- **The terminal-session registry of the backend** (`session_registry.dfy`,
  module `SessionRegistry`). It has two dictionaries: `ssh_sessions` maps a
  session id to an `SSHSession`, and `client_sessions` maps a client id to the
  set of session ids that client opened. The Socket.IO handlers consult and
  update them: connect, disconnect, open, input, close and resize, and so
  does the exit block of the output reader. `cleanup_session` touches only
  one session; no handler in the modelled files calls it, so `Cleanup`
  models code the handlers never reach. The maps are
  fields of a `Registry` class, and each handler is one method, which makes
  it atomic just as `sessions_lock` does. Channel and SSH client are small
  classes that record what was done to them: a `closed` flag, a close count,
  the inputs sent and the resizes applied. What a handler emits is returned
  as an `Event`.
- **Connection profiles and path rules of the file manager**
  (`connection_tree.dfy`, module `ConnectionTree`, and `sftp_paths.dfy`,
  module `SftpPaths`). These cover `add_connection` and `get_connections`
  over the stored list of folders and connections, `normalize_path`, how
  `sftp_list_directory` picks the directory to list and forms each entry's
  path, and the last-100-lines window of the SFTP history. Both handlers take
  the loaded list and return the list to save or send. The server's home
  directory, which is the answer of `sftp.normalize('.')`, is a parameter.
- **Dotted-key message lookup in the front end** (`js_values.dfy`, module
  `JsValues`; `i18n_plugin.dfy`, module `I18nPlugin`; `main_app.dfy`, module
  `MainApp`).
  - `JsValues` models the JavaScript values the lookups walk through and
    `String.prototype.split`.
  - `I18nPlugin` models the merged locale tables, the plugin's `$t` with its
    `(o || {})` guard and en-US fallback, the `currentLocale` computed value
    and the `locale.name` watcher.
  - `MainApp` models the entry script. It stores the default language in
    `localStorage` (a class) and installs its own `$t`, which has no guard.
    Its lookup is proved against the plugin's.

`wrappers.dfy` holds the `Option` and `Result` types.

Behaviour of the code that the model keeps as written:

- `handle_resize` passes the requested columns and rows to the channel
  unclamped.
- `handle_disconnect` keeps every session of the departing client; nothing
  is closed or removed.
- A session id can sit in two clients' sets. When a second client opens an
  id that is already open, the entry is replaced but the first client's set
  keeps the id; `ReopenByOtherClient` proves this. The index invariant
  (every registered id is in its owner's set) still holds.
- Close is idempotent because the entry is deleted, so a second close finds
  nothing (`CloseTwice`). It does not join the output thread.

## Model

| member | source | states |
|---|---|---|
| SessionRegistry.Session.constructor | backend/service.py:52-59 | a new session holds the given client and channel, is active, and has no owner |
| SessionRegistry.Session.Cleanup | backend/service.py:657-672 | afterwards the session is inactive; the channel and the client are closed and their close counts grow by one exactly when the session was active; sent input and resizes are untouched |
| SessionRegistry.CleanupTwice | backend/service.py:657-662 | cleaning up twice closes the channel and the client at most once in all: teardown happens at most once |
| SessionRegistry.Channel.Send | backend/service.py:385 | the data is appended to what the channel has received; nothing else about the channel changes |
| SessionRegistry.Channel.ResizePty | backend/service.py:444-447 | the size is appended to the channel's resizes; nothing else changes |
| SessionRegistry.Channel.Close | backend/service.py:409 | the channel is closed and its close count grows by one |
| SessionRegistry.SshClient.Close | backend/service.py:410 | the client is closed and its close count grows by one |
| SessionRegistry.KeyErrorText | backend/service.py:427-432 | the text of the KeyError from close is the id as Python's repr writes it: between double quotes when the id holds a single quote and no double quote, single quotes otherwise, and unchanged between them when it holds nothing to escape |
| SessionRegistry.ReprChar | backend/service.py:431 | a plain character is written as it is; any other is written as an escape starting with a backslash |
| SessionRegistry.ReprBody | backend/service.py:431 | the escaped text is no shorter than the id, and equals it when nothing needs escaping |
| SessionRegistry.HexDigit | backend/service.py:431 | the digit is one of 0-9 or a-f, as repr's \x escapes write it |
| SessionRegistry.HexValue | backend/service.py:431 | the value of a hexadecimal digit is below 16 |
| SessionRegistry.UnescapeReprChar | backend/service.py:431 | reading back one escaped character gives the character |
| SessionRegistry.UnescapeReprBody | backend/service.py:431 | reading back the escaped text gives the id |
| SessionRegistry.KeyErrorTextRoundTrip | backend/service.py:427-432 | the KeyError text determines the session id: reading it back between its quotes gives the id |
| SessionRegistry.KeyErrorTextDoubleQuoted | backend/service.py:427-432 | the id a'b is reported between double quotes, as "a'b" |
| SessionRegistry.KeyErrorTextBackslash | backend/service.py:427-432 | a backslash in the id is reported doubled, between single quotes |
| SessionRegistry.Registry.constructor | backend/service.py:62-63 | both dictionaries start empty |
| SessionRegistry.Registry.InputRefusal | backend/service.py:376-381 | no error exactly when the session is registered, active and owned by the caller; "not found or inactive" exactly when it is missing or inactive; "belongs to another client" exactly when it is active but owned by someone else |
| SessionRegistry.Registry.Connect | backend/service.py:66-71 | the client's set becomes empty, replacing any earlier one; the sessions are unchanged; from an indexed state, the index invariant survives exactly when the client owns no session |
| SessionRegistry.Registry.Disconnect | backend/service.py:73-81 | nothing changes (sessions are kept); the result says whether the client had a set |
| SessionRegistry.Registry.Open | backend/service.py:293-357 | on an authentication or connection failure, both maps are unchanged and the error goes to the caller's room; on success, fresh session, channel and client are stored under the id, active and owned by the caller, and the id is added to the caller's set (created if absent); if starting the reader fails afterwards, the entry stays, the SSH client is closed and the initialization error goes to the caller; the index invariant is preserved |
| SessionRegistry.Registry.Register | backend/service.py:329-333 | the session is stored under its id, replacing any earlier entry, and the id is added to the owner's set, which is created when absent; the index invariant is preserved |
| SessionRegistry.Registry.SendInput | backend/service.py:367-393 | input reaches the channel exactly when the session is registered, active and owned by the caller (and the handler then emits nothing); otherwise the channel is untouched and the refusal is broadcast as an error |
| SessionRegistry.Registry.Resize | backend/service.py:434-447 | the unclamped size is applied only for a registered, active, caller-owned session; in every other case the channel is unchanged |
| SessionRegistry.Registry.Close | backend/service.py:395-432 | for an unknown id or a non-owner, nothing changes and nothing is emitted; for the owner, the session becomes inactive, channel and client are each closed once (sent input and resizes untouched), the entry is deleted, the id is removed from the owner's set, and closed is broadcast — unless the owner's set lacks the id, when the KeyError text is broadcast instead; from an indexed state, the invariant is kept and the KeyError cannot occur |
| SessionRegistry.Registry.PumpExit | backend/service.py:283-291 | a registered session is marked inactive and keeps its owner; the closed event is always broadcast |
| SessionRegistry.CloseThenCleanup | backend/service.py:402-416 | after an owner's close, cleanup closes nothing more: the channel and the client are closed exactly once in all |
| SessionRegistry.CloseTwice | backend/service.py:402-426 | a second close by the owner finds no entry and emits nothing |
| SessionRegistry.ReopenByOtherClient | backend/service.py:329-333 | when two clients open the same id in turn, the second owns it, the id is in both clients' sets, and the index invariant still holds |
| ConnectionTree.FirstFolder | backend/app.py:65-66 | the index of the first folder with the given id, with no folder of that id before it; none when no folder has the id |
| ConnectionTree.WithConnection | backend/app.py:67-69 | the folder keeps its id and name, and its connections become the old list (empty if missing) with the new connection at the end |
| ConnectionTree.AddConnection | backend/app.py:59-72 | with a non-empty folderId, the connection is appended to the first matching folder and every other item is kept; with no match the list is unchanged; without a folderId, the connection is appended at the end |
| ConnectionTree.FirstFolderIs | backend/app.py:65-70 | a matching folder with no match before it is the first match, which is the one the loop picks |
| ConnectionTree.Shown | backend/app.py:84-86 | a folder is shown with connections defaulted to an empty list; other items are shown as they are |
| ConnectionTree.TopLevelView | backend/app.py:81-89 | the view has no more items than the stored list; every item in it is a folder with a connections list or a connection without a folderId key |
| ConnectionTree.TopLevelViewAppend | backend/app.py:81-89 | the view of a concatenation is the concatenation of the views, so stored order is kept |
| ConnectionTree.TopLevelViewMembers | backend/app.py:82-89 | an item is in the view exactly when it is how some listed stored item is shown |
| ConnectionTree.TopLevelViewIdempotent | backend/app.py:81-89 | taking the view of the view changes nothing |
| ConnectionTree.GetConnections | backend/app.py:77-90 | the loop builds exactly the view of the stored list; the stored list itself is a value and is not changed |
| ConnectionTree.AddedTopLevelShown | backend/app.py:71-72 | a connection added without a folderId key shows up last in the view; one added with a null or empty folderId is stored but does not appear |
| ConnectionTree.AddedToFolderShown | backend/app.py:64-70 | a connection added into a folder appears in the view inside that folder and not at the top level |
| SftpPaths.ForwardSlashes | backend/app.py:57 | same length; each backslash becomes '/' and every other character stays |
| SftpPaths.StripTrailingSlashes | backend/app.py:57 | a prefix of the input, followed in the input only by slashes, and not itself ending in '/' |
| SftpPaths.NormalizePath | backend/app.py:56-57 | the result has no backslash and does not end in '/' |
| SftpPaths.ForwardSlashesFixed | backend/app.py:57 | a string without backslashes is unchanged by the rewrite |
| SftpPaths.NormalizePathShape | backend/app.py:56-57 | the result is a prefix of the rewritten input, and the dropped tail is made only of slashes and backslashes |
| SftpPaths.NormalizePathIdempotent | backend/app.py:56-57 | normalizing twice is the same as normalizing once |
| SftpPaths.NormalizePathNeverRoot | backend/app.py:56-57 | a normalized path is never "/" |
| SftpPaths.SlashesNormalizeToEmpty | backend/app.py:56-57 | a path made only of slashes and backslashes normalizes to the empty string |
| SftpPaths.ListingDirectory | backend/app.py:222-225 | forceRoot lists "/"; otherwise "root" and the empty normalized path list the home directory, and any other normalized path is listed as given |
| SftpPaths.RootRequestListsHome | backend/app.py:224-225 | asking for "/" without forceRoot lists the home directory, because normalization turns "/" into "" |
| SftpPaths.JoinPath | backend/app.py:237 | an absolute name replaces the directory; otherwise the two are joined with exactly one '/' unless the directory is empty or already ends in '/' |
| SftpPaths.EntryPath | backend/app.py:237-239 | the entry path has no backslash; it is the rewritten joined path with one leading "./" removed exactly when it started with "./", and unchanged otherwise |
| SftpPaths.DotEntryPath | backend/app.py:237-239 | every entry listed under "." that is not absolute, hidden entries such as ".bashrc" and the empty name included, gets its own name as path, with any backslash in it turned into '/' |
| SftpPaths.DotJoin | backend/app.py:237 | under ".", a name that is not absolute is joined as "./" followed by the name |
| SftpPaths.DotForwardSlashes | backend/app.py:237 | rewriting "./" followed by a name keeps the "./" and rewrites the name |
| SftpPaths.ForwardSlashesAppend | backend/app.py:237 | the backslash rewrite of a concatenation is the concatenation of the rewrites |
| SftpPaths.FirstLineLength | backend/app.py:375 | the length of the first line: positive, bounded by the text, with no newline before its end and a newline at its end when more text follows |
| SftpPaths.ReadLines | backend/app.py:375 | the lines concatenate back to the text; each is non-empty with a newline only at its end, and every line but the last ends in a newline |
| SftpPaths.FirstLineOfJoin | backend/app.py:375 | a line followed by more text, when it ends in a newline, is read back as the first line |
| SftpPaths.ReadLinesOfLines | backend/app.py:375 | reading back text made of such lines gives the same lines |
| SftpPaths.ConcatAppend | backend/app.py:376 | joining a concatenation of line lists is the concatenation of the joined texts |
| SftpPaths.LastLines | backend/app.py:375 | the last n lines (all of them when there are fewer), in their order |
| SftpPaths.Concat | backend/app.py:376 | the join of one line is that line; the join is empty exactly when every line is |
| SftpPaths.History | backend/app.py:372-376 | the history text is a suffix of the log |
| SftpPaths.HistoryIsTail | backend/app.py:375-376 | the history is a suffix of the log whose lines are the log's last lines, exactly 100 of them when the log has more, and the whole log when it has at most 100 |
| JsValues.Get | src/plugins/i18n.js:129 | an object's own property, or undefined when there is none |
| JsValues.FirstIndex | src/plugins/i18n.js:129 | the position of the first separator, or -1 exactly when there is none |
| JsValues.Split | src/plugins/i18n.js:129 | at least one part, no part contains the separator, and joining the parts with it gives the key back |
| JsValues.SplitSingle | src/plugins/i18n.js:129 | a key without a dot is one segment |
| JsValues.SplitCons | src/plugins/i18n.js:129 | splitting head.rest, where head has no dot, gives head followed by the segments of rest |
| JsValues.SplitJoin | src/plugins/i18n.js:129 | splitting the join of dot-free parts recovers the parts |
| I18nPlugin.Spread | src/plugins/i18n.js:111-120 | the merged keys are the union; a custom key takes the custom value, and a base key absent from the custom messages keeps its base value |
| I18nPlugin.LocaleName | src/plugins/i18n.js:127 | the locale name when it is present and non-empty, en-US otherwise |
| I18nPlugin.MessagesFor | src/plugins/i18n.js:127-128 | the merged Chinese table exactly when the effective name is zh-CN, and the merged en-US table for every other name |
| I18nPlugin.GuardedGet | src/plugins/i18n.js:129 | reading from undefined gives undefined with no error; any other value is read normally |
| I18nPlugin.WalkUndefined | src/plugins/i18n.js:129 | once undefined is reached, every further segment reads undefined |
| I18nPlugin.WalkAppend | src/plugins/i18n.js:129 | walking p then q from where p ended equals walking p + q |
| I18nPlugin.MissingSegmentIsUndefined | src/plugins/i18n.js:129 | a missing segment anywhere makes the whole lookup undefined, with no error |
| I18nPlugin.LookupSingle | src/plugins/i18n.js:129 | a key without a dot reads one property of the table |
| I18nPlugin.LookupDescends | src/plugins/i18n.js:129 | `$t` descends one level per dot-separated segment |
| I18nPlugin.UnknownLocaleFallsBack | src/plugins/i18n.js:127-128 | any name other than zh-CN (absent, empty or unknown) gives the same answer as en-US |
| I18nPlugin.MergedLocales | src/plugins/i18n.js:111-120 | exactly the locales en-US and zh-CN, each an object whose top-level keys are the library's and the custom ones, with the custom value winning and library-only keys keeping their value |
| I18nPlugin.Walk | src/plugins/i18n.js:129 | no segments give the table itself; a segment read from a value that is not an object gives undefined whatever follows |
| I18nPlugin.LookupKey | src/plugins/i18n.js:129 | a table that is not an object answers undefined to every key |
| I18nPlugin.Translate | src/plugins/i18n.js:126-130 | the key is looked up in the zh-CN merged table when the effective name is zh-CN, and in the en-US merged table for every other name |
| I18nPlugin.SpreadLookup | src/plugins/i18n.js:111-129 | in a merged table, a key under a top-level custom key is looked up entirely in the custom messages, under a base-only key in the base, and under neither it is undefined |
| I18nPlugin.MergedLookup | src/plugins/i18n.js:111-129 | in both the en-US and the zh-CN table, under a top-level key of that locale's custom messages the lookup runs entirely in the custom table; under a library-only key, in the library table; under neither, the result is undefined |
| I18nPlugin.CurrentLocale | src/plugins/i18n.js:143-145 | locale.name when it is present and truthy, currentLanguage otherwise |
| I18nPlugin.Watch | src/plugins/i18n.js:148-153 | a truthy new name becomes currentLanguage; a falsy one leaves it as it was |
| I18nPlugin.LastTruthy | src/plugins/i18n.js:148-153 | when present, a truthy name that occurs among those seen |
| I18nPlugin.WatchAll | src/plugins/i18n.js:148-153 | over a series of new names, currentLanguage only ever changes to a truthy name that was seen |
| I18nPlugin.WatchAllSnoc | src/plugins/i18n.js:148-153 | watching one more name applies the watcher once more to the current value |
| I18nPlugin.WatchAllIsLastTruthy | src/plugins/i18n.js:148-153 | after a series of names, currentLanguage is the last truthy one, or its starting value if there was none |
| I18nPlugin.CurrentLocaleNeverEmpty | src/plugins/i18n.js:137-153 | starting from en-US, currentLanguage and currentLocale are never empty |
| MainApp.StoredLanguage | src/main.js:17 | the stored language exactly when the key is present, none otherwise |
| MainApp.LocalStorage.GetItem | src/main.js:11 | the stored value for the key, or none when absent |
| MainApp.LocalStorage.SetItem | src/main.js:12 | the key is bound to the value; the other keys are unchanged |
| MainApp.InitDefaultLanguage | src/main.js:11-13 | a missing or empty stored language becomes en-US, and any other value is left unchanged; afterwards the stored language is non-empty |
| MainApp.Language | src/main.js:17 | the stored language when non-empty, en-US otherwise |
| MainApp.MessagesFor | src/main.js:18 | only the exact string zh-CN selects the Chinese table; every other value selects English |
| MainApp.StrictWalk | src/main.js:19 | no segments give the table itself; a segment read from undefined throws, naming that segment; every error names one of the segments |
| MainApp.StrictLookup | src/main.js:19 | an undefined table throws for every key, and an error names a segment of the key |
| MainApp.Translate | src/main.js:16-20 | the key is looked up strictly in the Chinese table exactly when zh-CN is stored, and in the English table otherwise |
| MainApp.StartAndTranslate | src/main.js:11-19 | after start-up, `$t` looks the key up in the Chinese table exactly when zh-CN was stored beforehand, and in the English table otherwise |
| MainApp.StrictLookupDescends | src/main.js:19 | `$t` descends one level per segment and throws when a segment is read from undefined |
| MainApp.StrictAgreesWithPlugin | src/main.js:19 | where the strict lookup returns a value, the plugin's guarded lookup returns the same; where it throws, the plugin's returns undefined |
| MainApp.StrictErrorIffMissingIntermediate | src/main.js:19 | the strict lookup throws exactly when some segment is read from undefined, i.e. a missing intermediate segment or table; a missing last segment gives undefined |

## Left out

- Paramiko (connecting, shell invocation, transport settings, SFTP calls) is a foreign library. Only its outcome is modelled: the `ConnectOutcome` of `Open`, the error from starting the reader, and the home directory given to `ListingDirectory`.
- Socket.IO emits, Flask routes, JSON loading and saving of the config file, and log-file reads and writes are I/O. Handlers return an `Event`, or the list to save or send, and the log text is a parameter of `History`.
- Threads, `sessions_lock` and the per-session lock are not modelled; each handler is one atomic method. Joining the read thread in `cleanup_session` is also left out.
- The polling loop of `read_output`, with its clock, sleeps and 300-second inactivity timeout, is concurrency and wall-clock timing. Only its exit block is modelled (`PumpExit`).
- Exceptions raised by `channel.send`, `channel.close` and `resize_pty`, and by `int()` on a non-numeric size, are not modelled. The close handler swallows close errors anyway.
- The outer "Connection error" handler of open is not modelled. After the id is read, every failure is caught by the inner handlers. When the `session_id` key is missing, the outer handler itself reads the unbound `session_id` and raises, so nothing is emitted.
- A rejected password or key does not reach `Open` as `AuthenticationFailed`. `create_ssh_client` reads its still unbound `ssh` in its `except` block (backend/service.py:221-223), and the resulting UnboundLocalError takes the "Connection failed" branch. The authentication-failure branch is kept as the code writes it, but in practice it receives only an authentication error raised after the client exists.
- SessionRegistry.KeyErrorText: characters at and above U+0080 are written as they are. Python's repr escapes the ones it counts as unprintable, and the Unicode printability table is not modelled.
- SessionRegistry.Registry.Resize: the `int()` conversion of `cols` and `rows` is not modelled; the sizes arrive as integers.
- Missing `type`, `id` or `session_id` keys, which raise KeyError in the handlers, are not modelled: every item has a type and every folder an id. Connection fields other than `name` and `folderId` are not modelled, because neither operation reads them.
- `os.path.join` is modelled with POSIX rules. The Windows rules of `ntpath` (drive letters, backslash separators) are left out.
- `readlines` is modelled as cutting after each `\n`. Universal-newline translation of `\r` and `\r\n` is left out.
- JavaScript property reads on strings (for example `"abc"["length"]`) and on the object prototype are not modelled: they read as undefined here. The sole JavaScript value kinds are undefined, strings and plain objects.
- The locale tables (the component library's tables, the custom messages, src/locale/en-US.js and src/locale/zh-CN.js) are plain data. They are parameters of the lookups, not literal tables.
- The zip download, `sftp_walk`, temporary download folders, HTTP proxying, Electron bootstrap and packaging are remote filesystem I/O, network clients or process setup, and are not part of this model. So are the SSH handlers of `backend/app.py` (lines 103-193 and 541-548), which belong to a separate, simpler server without ownership checks.
- Transfer progress tracking, speed and ETA averaging, cancellation and adaptive output buffering do not occur in the modelled source files.

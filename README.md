# nsh session core, modelled in Dafny

nsh is an interactive shell. It puts the exports of the shelljs command
library into a Node.js REPL and adds session helpers (`cd`, `run`, `pwdl`,
`lsl`, `exit`). It also keeps the REPL history in `~/.nsh_history` and can
run a script file given on the command line. This project models the
sequential logic of `nsh.js` and proves what it does:

- `text.dfy` (module `Text`): the JavaScript operations the shell uses.
  These are `split('\n')`, `join('\n')`, `reverse()`, `filter` and
  `trim()`, plus the ECMAScript line-terminator and white-space classes. It
  proves split/join round trips, double reversal, and that `trim()` leaves
  nothing exactly when every character is white space or a line terminator.
- `shebang.dfy` (module `Shebang`): removing an interpreter directive with
  `/^#!.*\n/`. In that regular expression `.` does not match `\n`, `\r`,
  U+2028 or U+2029.
- `completer.dfy` (module `Completer`): tab completion over the library's
  command names followed by the entries of the current directory.
- `history.dfy` (module `History`): loading the history file and saving
  it at exit, with the cap of 250 entries.
- `nsh.dfy` (module `Nsh`): the `Session` class. Its fields are the
  current directory, the prompt, the history, the context, the two console
  streams and whether the process has exited. It also holds the context
  overlay, the `cd`, `run` and `exit` helpers, the two history loads at
  start-up and the command-line split.

Some behaviours of the code are easy to miss when reading its comments
and tests. The model follows the code in each case:

- The directive is removed only when its line ends in `\n` with no other
  line terminator before it. A lone `#!...` line with no newline stays, and
  so does a CRLF first line.
- A load appends the file's lines (`push`) after the entries already in
  memory, so they come after anything the session already holds.
- The history file is loaded twice at start-up (nsh.js:29-32 and 90-93).
  So a fresh session holds every saved entry twice.
- A script runs as the body of an async arrow function that is called at
  once. So for a script text that is a well-formed function body, the
  evaluator yields a promise and the script's return value is never printed
  (`RunNeverPrintsResult`). A text that closes the wrapper early, such as
  `})(); 42 //`, can make the evaluator return a plain value, and `run`
  then prints it (`RunEffect` keeps that branch).
- A script that throws, or whose promise rejects, with `null` or
  `undefined` is not reported as `Error: ...`. Reading `err.message` in the
  `catch` (nsh.js:70) throws a TypeError, which escapes `run`; the `finally`
  still deletes `args` (`RunEffect`, field `escaped`).
- `run` binds `args` and then deletes it. A binding named `args` that
  existed before the call is therefore gone afterwards too
  (`RunTouchesOnlyArgs`).

The file system, shelljs, `vm` and the process are not modelled. What they
report is passed in as parameters:

- whether a file exists, and its text;
- the `{code, stdout, stderr}` result of `shell.cd`, and what `shell.pwd`
  reports;
- the directory listing and the library's export names;
- the error that writing the history file raises, if any;
- the evaluator, which is a function from (wrapped source, script path,
  context) to the context the script leaves behind and its outcome. The
  outcome is a synchronous throw, `undefined`, a plain value, or a thenable
  that was fulfilled or rejected. A thrown or rejection value either has a
  readable `message` or is nullish (`null` or `undefined`).

`console.log` and `console.error` calls in nsh itself append lines to `stdout` and `stderr`; the shell library's own messages are not modelled.

## Model

| member | source | states |
|---|---|---|
| `Text.Filter` | nsh.js:116 | The result holds exactly the elements that pass the test. Each keeps its multiplicity, and their order is that of the input (an order-preserving subsequence). |
| `Text.FilterKeepsAll` | nsh.js:31 | When every element passes, filtering returns the input unchanged. |
| `Text.Reverse` | nsh.js:30 | The result has the same length and the same elements with the same multiplicities, and element `i` is element `n-1-i` of the input. |
| `Text.ReverseReverse` | nsh.js:99 | Reversing twice gives back the original sequence. |
| `Text.Split` | nsh.js:30 | `split('\n')` always yields at least one piece, and no piece contains a newline. |
| `Text.Join` | nsh.js:99 | `join('\n')` of no lines is empty. Otherwise it starts with the first line, followed by `\n` when more lines follow. `SplitJoin` and `JoinSplit` pin it down as the inverse of `split('\n')`. |
| `Text.TrimEmpty` | nsh.js:31 | `trim()`, which removes white space and line terminators from both ends, leaves the empty string exactly when every character is white space or a line terminator. |
| `Text.IsBlank` | nsh.js:31 | `line.trim() === ''` holds exactly when every character of the line is ECMAScript white space or a line terminator. |
| `Text.SplitJoin` | nsh.js:99 | Splitting the `join('\n')` of one or more newline-free lines gives back exactly those lines. |
| `Text.JoinSplit` | nsh.js:30 | Joining the pieces of `split('\n')` with newlines gives back the original text. |
| `Shebang.LineEnd` | nsh.js:56 | The result is the first line terminator at or after the start position, or the end of the text. Everything before it is a non-terminator. This is how far `.*` can reach. |
| `Shebang.StripShebang` | nsh.js:55-56 | Text that does not start with `#!` is returned unchanged. Otherwise the result is either the text itself or the text without one leading `#!` line that holds no line terminator and ends in `\n`. |
| `Shebang.StripsDirectiveLine` | nsh.js:55-56 | `"#!" + line + "\n" + rest`, where `line` holds no line terminator, becomes exactly `rest`. |
| `Shebang.KeepsLoneDirective` | nsh.js:55-56 | A `#!` line with no newline after it is left unchanged. |
| `Shebang.KeepsOtherTerminator` | nsh.js:56 | A `#!` line ended by `\r`, U+2028 or U+2029 instead of `\n` is left unchanged, as in a CRLF file. |
| `Completer.Pool` | nsh.js:112-114 | Definition: the pool is the command names followed by the directory entries, each list whole and in order. |
| `Completer.Hits` | nsh.js:116 | The result holds exactly the pool entries that have the line as a prefix, each as often as in the pool and in pool order. |
| `Completer.Complete` | nsh.js:111-118 | The second component is the input line. The candidates are an order-preserving subsequence of the command names followed by the directory entries. If some entry has the line as a prefix, the candidates are exactly the matching entries, with their multiplicities. If none does, the candidates are the whole pool. The candidates are non-empty whenever the pool is. |
| `Completer.CompleteEmptyLine` | nsh.js:116-117 | Completing `""` offers the whole pool, in pool order. |
| `Completer.CompleteEmptyLineEmptyDirectory` | nsh.js:111-117 | In an empty directory, completing `""` offers exactly the library's command names. |
| `History.NonBlank` | nsh.js:31 | No kept line is blank in the sense of `trim() === ''`. Every non-blank line is kept as often as it occurs, and the kept lines keep their order. |
| `History.LoadLines` | nsh.js:30-31 | One load yields every non-blank line of the file, as often as it occurs there, none holding a newline, in reverse file order (newest first). |
| `History.Retain` | nsh.js:98 | A history of more than 250 entries keeps exactly its first 250, which are the newest. A history of 250 or fewer entries is kept whole. |
| `History.SavedText` | nsh.js:98-99 | When at least one entry is kept and no entry holds a newline, the lines of the saved text are the kept entries, oldest first. |
| `History.SaveLoadRoundTrip` | nsh.js:98-99 | Take the text saved at exit and load it (nsh.js:30-31) into an empty history. The result is the newest 250 entries in their original order, provided no entry is blank or holds a newline. |
| `History.SavedAtMostCap` | nsh.js:98 | Loading the saved text yields at most 250 entries. If the history had at most 250 entries, it yields all of them. Both hold provided no entry is blank or holds a newline. |
| `Nsh.Overlay` | nsh.js:35-96 | The context's names are the globals, the library exports and the five helpers. Each helper name is bound to its helper. A library export wins over a global of the same name, and a helper wins over both. |
| `Nsh.PromptFor` | nsh.js:22 | Definition: the prompt is `nsh:`, then the directory, then ` > `. |
| `Nsh.PromptShowsDirectory` | nsh.js:42 | The prompt `nsh:<dir> > ` contains the directory right after `nsh:`. Different directories give different prompts. |
| `Nsh.WrapAsync` | nsh.js:60 | Definition: the evaluated source is `(async () => { `, the script text, and ` })()`. |
| `Nsh.Failure` | nsh.js:64-70 | Definition: the `catch` receives a value exactly when the evaluation threw or the awaited thenable rejected, and it is the value thrown or rejected with. |
| `Nsh.RunEffect` | nsh.js:50-77 | On a missing file, `run` reports `File not found: <file>`, keeps the context exactly, prints nothing and does not fail. On an existing file, `args` is absent afterwards, and every other name is as the evaluation left it. A plain result is printed, and nothing else is. A thrown or rejection value with a message is reported as `Error: <message>`. A nullish one is not reported, and the error escapes `run`. Otherwise nothing is reported. |
| `Nsh.RunNeverPrintsResult` | nsh.js:60-68 | Assume the evaluator follows JavaScript, so that calling an async function yields a thenable. Then `run` never prints the result of a script whose text is a function body. |
| `Nsh.RunTouchesOnlyArgs` | nsh.js:58-73 | On an existing file, if the script changes no binding, the context after `run` is the context before it minus `args`, including an `args` bound before the call. |
| `Nsh.ParseCommandLine` | nsh.js:121-124 | `--version` anywhere among the arguments selects the version branch (the test on nsh.js:13). Otherwise the program runs a script exactly when there is at least one user argument, and the script path followed by its arguments are the user arguments. |
| `Nsh.Session.Start` | nsh.js:20-108 | The session starts in the given directory with the matching prompt. The history is the file's entries loaded twice, the context is the overlay, the streams are empty and the process has not exited. |
| `Nsh.Session.LoadHistory` | nsh.js:29-32 | The history becomes the old history followed by the file's lines. Those lines are reversed to newest-first and have blank lines dropped. A missing file adds nothing, and nothing else changes. |
| `Nsh.Session.Cd` | nsh.js:38-47 | With code 0, the directory becomes the reported working directory and the prompt follows. Otherwise `cd: <stderr>` is reported, and the directory, prompt, history and context stay unchanged. The prompt always matches the directory. |
| `Nsh.Session.Run` | nsh.js:50-77 | The context, both streams and whether an error escaped are exactly as `RunEffect` says. Directory, prompt and history stay unchanged. |
| `Nsh.Session.Exit` | nsh.js:96-105 | The history becomes its newest 250 entries, reversed in place to oldest-first. The written text is their `join('\n')`. A failed write is reported as `Error saving history: <err>`. The process exits in either case. |

## Left out

- The REPL itself is not modelled: `repl.start`, showing the prompt (`displayPrompt` on nsh.js:43) and readline events. It is user-interface plumbing.
- The REPL's own additions to the history for each typed line are not modelled, because the line-editing front end owns them.
- `r.on('exit', …)` (nsh.js:108) is not modelled separately, because it calls the same `exit` helper as `Session.Exit`.
- `vm.runInContext` and the meaning of script code are not modelled. They appear only as the evaluator parameter.
- The evaluator can change only the context. `Session.Run`'s contract covers only scripts that do not call the session helpers while they are evaluated. A script that calls `cd`, `run` or `exit` can change the directory, prompt, history, streams or exit state during its own run, and a nested `run` deletes the outer script's `args` before the outer script finishes; none of that is modelled.
- The calls to fs and shelljs are foreign I/O, and their results are parameters: `existsSync`, `readFileSync`, `writeFileSync`, `readdirSync`, `shell.cd`, `shell.pwd`, `shell.ls` and `path.resolve`.
- A `readFileSync` failure on a script path that exists (a directory, say) is not modelled. It escapes `run` before the `try`.
- A history file that exists but cannot be read (a directory, or no read permission) is not modelled. `readFileSync` at nsh.js:30 or nsh.js:91 then throws at start-up and the shell dies; `Session.Start` and `Session.LoadHistory` take only whether the file exists and its text.
- Completer.Complete: always returns a pair. In the source, `fs.readdirSync(currentDir)` (nsh.js:113) can throw instead, for example ENOENT after a script deletes the current directory, or EACCES for a directory that `shell.cd` could enter but not list. The model takes the listing as given.
- Nsh.Session.Run: takes `file` as a string. `run()` or a non-string `file` typed at the REPL makes `path.resolve(file)` (nsh.js:51) throw a TypeError. `run`'s promise then rejects before the existence test, with no `File not found:` line.
- Nsh.Session.Cd: adds only nsh's own `cd: <stderr>` line to `stderr`. shelljs, not configured as silent, also writes its own `console.error` line for a failed `cd` (such as `cd: no such file or directory: x`) before it. That library output is not modelled, so `stderr` holds only the lines nsh itself writes.
- `run(file)` with no second argument takes the default `args = []` (nsh.js:50), which is `Session.Run` with `args` empty. An `args` that is not an array of strings, which a REPL caller can pass, is not modelled: the model binds `args` only to `Strings(...)`.
- Nsh.Session.Run: treated as one atomic step in which every thenable settles. A script awaiting a promise that never settles never reaches the `finally`, so `args` stays bound and the direct-execution wrapper's own call of `exit` (nsh.js:132) is never reached. The history is then saved only if the REPL, which is started in that mode too (nsh.js:21), exits and its `exit` event calls the helper (nsh.js:108). A `run(...)` typed at the REPL is not awaited, so later input can run while the script is pending and can see `args`.
- Nsh.RunNeverPrintsResult: which script texts are well-formed function bodies is left abstract (`isBody`). A text that closes the wrapper early, such as `})(); 42 //`, is outside the lemma, and for it `run` prints the plain value.
- `process.exit` is modelled only as the `exited` flag. Process control is outside the model.
- `setImmediate` (nsh.js:132) is not modelled, and neither is the printing of the version from `package.json` (nsh.js:14-16).
- The direct-execution wrapper (nsh.js:126-134) is `Run` followed by a call of whatever `exit` is bound to in the context at that point (nsh.js:132). That is `Session.Exit` unless the script rebound `exit`; a rebound `exit` is not modelled. Its `catch` is reached by the `readFileSync` failure above and by the TypeError that escapes `run` for a nullish thrown or rejection value (`escaped`). What that `catch` prints (`console.error(err)`) is not modelled.
- `pwdl` and `lsl` (nsh.js:80-87) appear only as helper names in the context. Each is a one-line print wrapper around a shelljs call.
- Rendering is not modelled. `console.log` of a value and of the history-save error uses `util.inspect`, and the model takes that rendered text as given. A non-nullish thrown or rejection value without a `message` property is reported as `Error: undefined`; the model takes the rendered message as given.
- JavaScript strings are sequences of UTF-16 code units. Here a `char` is a Unicode scalar value, so surrogate pairs are not modelled.
- Session.Exit: does not stop a second call of the model from reversing the history again. In the source, `process.exit` ends the process first.

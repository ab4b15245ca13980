/** The session of the shell (nsh.js): the current directory and the prompt
    that shows it, the in-memory history, the evaluation context into which
    the shell-command library and the session helpers are installed, and the
    two console streams. The file system, the shell-command library and the
    script evaluator are outside; what they report is passed in. */
module Nsh {
  import opened Wrappers
  import opened Text
  import opened Shebang
  import opened History

  /** The session helpers nsh installs over the library's exports. */
  datatype HelperKind = CdHelper | RunHelper | PwdlHelper | LslHelper | ExitHelper

  /** The name each helper is installed under (nsh.js:38, 50, 80, 85, 96). */
  function HelperName(h: HelperKind): string {
    match h
    case CdHelper => "cd"
    case RunHelper => "run"
    case PwdlHelper => "pwdl"
    case LslHelper => "lsl"
    case ExitHelper => "exit"
  }

  /** A value bound in the evaluation context. */
  datatype Value =
    | Command(name: string)        // a function exported by the shell-command library
    | Helper(kind: HelperKind)     // a session helper
    | Strings(items: seq<string>)  // an array of strings, such as the `args` of a script
    | Host(id: nat)                // any other value: a global of the host, or one a script defined

  /** The context after nsh.js:35-96: the host's globals, overlaid with every
      export of the shell-command library (`Object.assign`), overlaid with the
      helpers, so that a helper wins over a library export of the same name
      and a library export wins over a global. */
  function Overlay(globals: map<string, Value>, shellExports: map<string, Value>): (r: map<string, Value>)
    ensures r.Keys == globals.Keys + shellExports.Keys + {"cd", "run", "pwdl", "lsl", "exit"}
    ensures forall h :: r[HelperName(h)] == Helper(h)
    ensures forall k :: k in shellExports && k !in {"cd", "run", "pwdl", "lsl", "exit"} ==> r[k] == shellExports[k]
    ensures forall k :: k in globals && k !in shellExports && k !in {"cd", "run", "pwdl", "lsl", "exit"} ==> r[k] == globals[k]
  {
    var withCommands := globals + shellExports;
    withCommands["cd" := Helper(CdHelper)]["run" := Helper(RunHelper)]["pwdl" := Helper(PwdlHelper)]
                ["lsl" := Helper(LslHelper)]["exit" := Helper(ExitHelper)]
  }

  /** The prompt for a directory (nsh.js:22, 42): `nsh:`, the directory, and ` > `. */
  function PromptFor(dir: string): (r: string)
    ensures |r| == |dir| + 7
    ensures r[..4] == "nsh:" && r[4..|r| - 3] == dir && r[|r| - 3..] == " > "
  {
    "nsh:" + dir + " > "
  }

  /** The prompt shows its directory, and different directories give different prompts. */
  lemma PromptShowsDirectory(a: string, b: string)
    ensures PromptFor(a)[4..4 + |a|] == a
    ensures PromptFor(a) == PromptFor(b) ==> a == b
  {
    assert PromptFor(a)[4..4 + |a|] == a;
    assert PromptFor(b)[4..4 + |b|] == b;
  }

  /** What a shell-command library call returns: `{code, stdout, stderr}`. */
  datatype ShellResult = ShellResult(code: int, stdout: string, stderr: string)

  /** The value a script throws or a promise rejects with. `HasMessage` is a
      value whose `message` property can be read, with that property as
      `${err.message}` renders it (`undefined` when it has none). `Nullish`
      is `null` or `undefined`: reading `message` from it throws a TypeError. */
  datatype Reason = HasMessage(message: string) | Nullish

  /** How a promise settled. */
  datatype Settlement = Fulfilled | Rejected(reason: Reason)

  /** What evaluating a script produced, when it did not throw: `undefined`, a
      plain value (as `console.log` renders it), or a thenable that settled. */
  datatype Completion = Undefined | Plain(rendered: string) | Thenable(settlement: Settlement)

  /** The abstract outcome of `vm.runInContext`: a synchronous throw or a completion. */
  datatype Outcome = Threw(reason: Reason) | Returned(completion: Completion)

  /** The context as the script left it, and the outcome of evaluating it. */
  datatype Evaluation = Evaluation(after: map<string, Value>, outcome: Outcome)

  /** The host evaluator: source text, file name of the script, context in, evaluation out. */
  type Evaluator = (string, string, map<string, Value>) -> Evaluation

  /** The source `run` hands to the evaluator: the script as the body of an
      async arrow function that is called at once (nsh.js:60). */
  function WrapAsync(code: string): (r: string)
    ensures |r| == |code| + 20
    ensures r[..15] == "(async () => { " && r[15..|r| - 5] == code && r[|r| - 5..] == " })()"
  {
    "(async () => { " + code + " })()"
  }

  /** An evaluator that follows JavaScript: for a script text that is a
      function body (`isBody`, which the model leaves abstract), the wrapped
      source is a single call of an async function; when it does not throw,
      that call yields a promise, so its completion is a thenable. A text
      that closes the wrapper early, such as `})(); 42 //`, is not a body. */
  ghost predicate HonoursAsync(eval: Evaluator, isBody: string -> bool) {
    forall code, file, ctx :: isBody(code) && eval(WrapAsync(code), file, ctx).outcome.Returned? ==>
      eval(WrapAsync(code), file, ctx).outcome.completion.Thenable?
  }

  /** What the `catch` of nsh.js:69-70 receives, if anything: the value
      thrown synchronously, or the one the awaited promise rejected with (nsh.js:65). */
  function Failure(outcome: Outcome): (r: Option<Reason>)
    ensures r.Some? <==> outcome.Threw? || (outcome.Returned? && outcome.completion.Thenable? && outcome.completion.settlement.Rejected?)
    ensures outcome.Threw? ==> r == Some(outcome.reason)
    ensures outcome.Returned? && r.Some? ==> r.value == outcome.completion.settlement.reason
  {
    match outcome
    case Threw(reason) => Some(reason)
    case Returned(Thenable(Rejected(reason))) => Some(reason)
    case Returned(_) => None
  }

  /** The lines a call of `run` adds to both streams, the context it leaves
      behind, and whether an error escaped it (its promise rejected). */
  datatype RunReport = RunReport(context: map<string, Value>, out: seq<string>, err: seq<string>, escaped: bool)

  /** What `run(file, args)` does (nsh.js:50-77), given the absolute path
      `path.resolve(file)` (`scriptPath`), whether it exists, the file's text
      and the evaluator. A missing file is reported and evaluates nothing; an
      existing one is evaluated with `args` bound; its failure is reported
      with the prefix `Error: `, except that a nullish reason makes the
      `catch` itself throw, so nothing is reported and the TypeError escapes
      `run`; and `args` is gone afterwards whatever happened. */
  function RunEffect(file: string, args: seq<string>, scriptPath: string, found: bool, text: string,
                     eval: Evaluator, ctx: map<string, Value>): (r: RunReport)
    ensures !found ==> r.context == ctx && r.out == [] && r.err == ["File not found: " + file] && !r.escaped
    ensures found ==> "args" !in r.context
    ensures found ==>
      var e := eval(WrapAsync(StripShebang(text)), scriptPath, ctx["args" := Strings(args)]);
      && (forall k :: k != "args" ==> (k in r.context <==> k in e.after))
      && (forall k :: k in r.context ==> r.context[k] == e.after[k])
      && (r.out == if e.outcome.Returned? && e.outcome.completion.Plain? then [e.outcome.completion.rendered] else [])
      && (r.escaped <==> Failure(e.outcome) == Some(Nullish))
      && (r.err == if Failure(e.outcome).Some? && Failure(e.outcome).value.HasMessage?
                   then ["Error: " + Failure(e.outcome).value.message] else [])
  {
    if found then
      var code := if "#!" <= text then StripShebang(text) else text;
      var e := eval(WrapAsync(code), scriptPath, ctx["args" := Strings(args)]);
      var out := match e.outcome
        case Returned(Plain(shown)) => [shown]
        case _ => [];
      var err := match Failure(e.outcome)
        case Some(HasMessage(m)) => ["Error: " + m]
        case _ => [];
      RunReport(e.after - {"args"}, out, err, Failure(e.outcome) == Some(Nullish))
    else
      RunReport(ctx, [], ["File not found: " + file], false)
  }

  /** Because a script that is a function body runs inside an async function,
      its return value is never printed: for it, the print branch of
      nsh.js:66-67 cannot be taken. */
  lemma RunNeverPrintsResult(file: string, args: seq<string>, scriptPath: string, found: bool, text: string,
                             eval: Evaluator, ctx: map<string, Value>, isBody: string -> bool)
    requires HonoursAsync(eval, isBody)
    requires isBody(StripShebang(text))
    ensures RunEffect(file, args, scriptPath, found, text, eval, ctx).out == []
  {
    if found {
      var code := StripShebang(text);
      var e := eval(WrapAsync(code), scriptPath, ctx["args" := Strings(args)]);
      assert e.outcome.Returned? ==> e.outcome.completion.Thenable?;
    }
  }

  /** `run` itself touches only `args`: with a script that leaves the context
      as it found it, every other binding survives, and a binding named `args`
      that was there before is gone too. */
  lemma RunTouchesOnlyArgs(file: string, args: seq<string>, scriptPath: string, text: string,
                           eval: Evaluator, ctx: map<string, Value>)
    requires forall src, name, c :: eval(src, name, c).after == c
    ensures RunEffect(file, args, scriptPath, true, text, eval, ctx).context == ctx - {"args"}
  {
    var r := RunEffect(file, args, scriptPath, true, text, eval, ctx);
    var bound := ctx["args" := Strings(args)];
    assert eval(WrapAsync(StripShebang(text)), scriptPath, bound).after == bound;
    assert r.context == ctx - {"args"};
  }

  /** How the program was invoked (nsh.js:13, 121-124): `--version` anywhere
      among the arguments, a script path with its arguments, or no
      arguments for the interactive shell. */
  datatype Invocation = Version | Interactive | Script(path: string, args: seq<string>)

  /** The command line `process.argv`: the node binary and nsh.js, then the user's arguments. */
  function ParseCommandLine(argv: seq<string>): (r: Invocation)
    ensures r.Version? <==> "--version" in argv
    ensures r.Script? <==> "--version" !in argv && |argv| >= 3
    ensures r.Script? ==> argv == argv[..2] + [r.path] + r.args
  {
    if "--version" in argv then Version
    else
      var args := if |argv| >= 2 then argv[2..] else [];
      if |args| >= 1 then Script(args[0], args[1..]) else Interactive
  }

  /** The one live session of the process. */
  class Session {
    var currentDir: string
    var prompt: string
    var history: seq<string>
    var context: map<string, Value>
    /** Lines nsh itself writes with `console.log` and `console.error` (not the shell library's own messages). */
    var stdout: seq<string>
    var stderr: seq<string>
    /** Set once `process.exit` has been called (nsh.js:103). */
    var exited: bool

    /** The prompt always shows the current directory. */
    ghost predicate Valid()
      reads this
    {
      prompt == PromptFor(currentDir)
    }

    /** Start-up (nsh.js:20-108): the working directory `cwd`, the prompt for
        it, the history file loaded (twice, as the source does), and the
        context overlaid with the library's exports and the helpers. */
    constructor Start(cwd: string, globals: map<string, Value>, shellExports: map<string, Value>,
                      historyExists: bool, historyText: string)
      ensures Valid()
      ensures currentDir == cwd && prompt == PromptFor(cwd)
      ensures var loaded := if historyExists then LoadLines(historyText) else [];
        history == loaded + loaded
      ensures context == Overlay(globals, shellExports)
      ensures stdout == [] && stderr == [] && !exited
    {
      currentDir := cwd;
      prompt := PromptFor(cwd);
      history := [];
      context := globals;
      stdout, stderr := [], [];
      exited := false;
      new;
      ghost var loaded := if historyExists then LoadLines(historyText) else [];
      LoadHistory(historyExists, historyText);
      assert history == [] + loaded == loaded;
      ghost var target := Overlay(globals, shellExports);
      var withHelpers := (globals + shellExports)["cd" := Helper(CdHelper)]["run" := Helper(RunHelper)]
                         ["pwdl" := Helper(PwdlHelper)]["lsl" := Helper(LslHelper)];
      context := withHelpers;
      LoadHistory(historyExists, historyText);
      assert context == withHelpers && history == loaded + loaded;
      context := withHelpers["exit" := Helper(ExitHelper)];
      assert context == target;
    }

    /** One load of the history file (nsh.js:29-32, 90-93): its entries,
        newest first and without blank lines, go after those already there. */
    method LoadHistory(fileExists: bool, text: string)
      requires Valid()
      modifies this
      ensures Valid()
      ensures history == old(history) + (if fileExists then LoadLines(text) else [])
      ensures currentDir == old(currentDir) && prompt == old(prompt) && context == old(context)
      ensures stdout == old(stdout) && stderr == old(stderr) && exited == old(exited)
    {
      if fileExists {
        var historyLines := Reverse(Split(text));
        history := history + NonBlank(historyLines);
      }
    }

    /** The `cd` helper (nsh.js:38-47), given what `shell.cd(dir)` returned and
        what `shell.pwd()` then reports. On success the directory and the
        prompt follow; on failure the library's message is reported and
        nothing else changes. */
    method Cd(result: ShellResult, pwd: string)
      requires Valid()
      modifies this
      ensures Valid()
      ensures result.code == 0 ==> currentDir == pwd && prompt == PromptFor(pwd) && stderr == old(stderr)
      ensures result.code != 0 ==>
        currentDir == old(currentDir) && prompt == old(prompt) && stderr == old(stderr) + ["cd: " + result.stderr]
      ensures history == old(history) && context == old(context) && stdout == old(stdout) && exited == old(exited)
    {
      if result.code == 0 {
        currentDir := pwd;
        prompt := PromptFor(currentDir);
      } else {
        stderr := stderr + ["cd: " + result.stderr];
      }
    }

    /** The `run` helper (nsh.js:50-77). */
    method Run(file: string, args: seq<string>, scriptPath: string, found: bool, text: string, eval: Evaluator)
      returns (escaped: bool)
      requires Valid()
      modifies this
      ensures Valid()
      ensures var report := RunEffect(file, args, scriptPath, found, text, eval, old(context));
        && context == report.context
        && stdout == old(stdout) + report.out
        && stderr == old(stderr) + report.err
        && escaped == report.escaped
      ensures currentDir == old(currentDir) && prompt == old(prompt) && history == old(history) && exited == old(exited)
    {
      escaped := false;
      if found {
        var code := text;
        if "#!" <= code {
          code := StripShebang(code);
        }
        context := context["args" := Strings(args)];
        var evaluation := eval(WrapAsync(code), scriptPath, context);
        match evaluation.outcome {
          case Threw(HasMessage(message)) =>
            stderr := stderr + ["Error: " + message];
          case Returned(Thenable(Rejected(HasMessage(message)))) =>
            stderr := stderr + ["Error: " + message];
          case Threw(Nullish) =>
            escaped := true;
          case Returned(Thenable(Rejected(Nullish))) =>
            escaped := true;
          case Returned(Plain(shown)) =>
            stdout := stdout + [shown];
          case Returned(_) =>
        }
        context := evaluation.after - {"args"};
      } else {
        stderr := stderr + ["File not found: " + file];
      }
    }

    /** The `exit` helper (nsh.js:96-105), given the error the write reports,
        if any: the history is cut to its newest `Cap` entries and reversed
        in place to oldest-first, the text written is its join, a failed
        write is reported, and the process exits either way. */
    method Exit(writeError: Option<string>) returns (written: string)
      requires Valid()
      modifies this
      ensures Valid()
      ensures history == Reverse(Retain(old(history)))
      ensures written == SavedText(old(history))
      ensures written == Join(history)
      ensures stderr == old(stderr) + (if writeError.Some? then ["Error saving history: " + writeError.value] else [])
      ensures exited
      ensures currentDir == old(currentDir) && prompt == old(prompt) && context == old(context) && stdout == old(stdout)
    {
      var kept := history;
      if |kept| > Cap {
        kept := kept[..Cap];
      }
      assert kept == Retain(old(history));
      var oldestFirst := Reverse(kept);
      written := Join(oldestFirst);
      assert written == SavedText(old(history));
      history := oldestFirst;
      if writeError.Some? {
        stderr := stderr + ["Error saving history: " + writeError.value];
      }
      exited := true;
    }
  }
}

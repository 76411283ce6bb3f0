/** The command line: argument checking and dispatch (`main`), as a pure
    specification (Parse, Dispatch, Invoke) and as the imperative program that
    drives a Store (Run), with properties that span several invocations. */
module Cli {
  import opened Output
  import opened Text
  import opened Clipboard

  /** What the arguments ask for. `RetrieveCmd` with `copyToOS` is `copy`.
      `Reject` carries the lines printed before exiting with status 1. */
  datatype Command =
    | AddCmd(key: string, value: string)
    | RetrieveCmd(key: string, copyToOS: bool)
    | ListCmd
    | Reject(lines: seq<Msg>)

  /** The part of the environment an invocation cannot see in advance: how
      saving goes, how the OS clipboard write goes, and the order in which the
      Go runtime happens to range over the map. */
  datatype Env = Env(save: SaveResult, clipboard: WriteResult, order: seq<string>)

  /** The argument checks of `main`; args[0] is the program name. */
  function Parse(args: seq<string>): (c: Command)
    ensures |args| < 2 ==> c == Reject([Usage])
    // The verb is matched after lower-casing; each verb has its own minimum count.
    ensures c.AddCmd? <==> |args| >= 4 && Lower(args[1]) == "add"
    ensures c.RetrieveCmd? <==> |args| >= 3 && (Lower(args[1]) == "retrieve" || Lower(args[1]) == "copy")
    ensures c.ListCmd? <==> |args| >= 2 && Lower(args[1]) == "list"
    // The key is taken verbatim; the value is the remaining tokens joined by single spaces.
    ensures c.AddCmd? ==> c.key == args[2] && c.value == Join(args[3..], " ")
    ensures c.RetrieveCmd? ==> c.key == args[2] && (c.copyToOS <==> Lower(args[1]) == "copy")
    // A missing argument prints a hint for that verb; anything else rejected prints the usage text.
    ensures c.Reject? && |args| >= 2 && Lower(args[1]) in ["add", "retrieve", "copy"] ==>
      c.lines == [MissingArgs(Lower(args[1])), CommandUsage(Lower(args[1]))]
    // An unknown verb is named, lower-cased, before the usage text.
    ensures c.Reject? && |args| >= 2 && Lower(args[1]) !in ["add", "retrieve", "copy"] ==>
      c.lines == [UnknownCommand(Lower(args[1])), Usage]
  {
    if |args| < 2 then Reject([Usage])
    else
      var command := Lower(args[1]);
      if command == "add" then
        if |args| < 4 then Reject([MissingArgs("add"), CommandUsage("add")])
        else AddCmd(args[2], Join(args[3..], " "))
      else if command == "retrieve" then
        if |args| < 3 then Reject([MissingArgs("retrieve"), CommandUsage("retrieve")])
        else RetrieveCmd(args[2], false)
      else if command == "copy" then
        if |args| < 3 then Reject([MissingArgs("copy"), CommandUsage("copy")])
        else RetrieveCmd(args[2], true)
      else if command == "list" then ListCmd
      else Reject([UnknownCommand(command), Usage])
  }

  /** The verb's case does not matter: writing it in any case gives the same
      command as writing it in lower case. */
  lemma VerbCaseIgnored(args: seq<string>, verb: string)
    requires |args| >= 2
    ensures Parse(args[1 := verb]) == Parse(args[1 := Lower(verb)])
  {
    LowerIdempotent(verb);
    assert args[1 := verb][2..] == args[1 := Lower(verb)][2..];
  }

  /** `main` after a successful load: one command applied to map `m`. */
  function Dispatch(args: seq<string>, m: map<string, string>, f: FileState, env: Env): (r: Outcome)
    // Only the argument checks exit with status 1.
    ensures r.exit == (if Parse(args).Reject? then 1 else 0)
    ensures Parse(args).Reject? ==> r.out == Parse(args).lines && r.copied == None
    // Only `add` changes the map, the file, or attempts a save.
    ensures !Parse(args).AddCmd? ==> r.data == m && r.file == f && !r.saveAttempted
    // Only `copy` writes to the OS clipboard.
    ensures r.copied.Some? ==> Parse(args).RetrieveCmd? && Parse(args).copyToOS
  {
    match Parse(args)
    case Reject(lines) => Outcome(m, f, lines, 1, false, None)
    case AddCmd(key, value) => AddEffect(m, f, key, value, env.save)
    case RetrieveCmd(key, copyToOS) => RetrieveEffect(m, f, key, copyToOS, env.clipboard)
    case ListCmd => ListEffect(m, f, env.order)
  }

  /** One whole run of the program against clipboard.json in state `f`. */
  function Invoke(f: FileState, args: seq<string>, env: Env): (r: Outcome)
    ensures r.exit == 0 || r.exit == 1
    ensures r.exit == 1 <==> LoadFile(f).NotLoaded? || Parse(args).Reject?
    // A file that cannot be loaded stops the run before the arguments are looked at.
    ensures LoadFile(f).NotLoaded? ==> r.out == [LoadError(LoadFile(f).failure)] && r.file == f && !r.saveAttempted
    // The file is only ever rewritten by an `add` with a non-empty key.
    ensures r.file != f ==> r.saveAttempted
    ensures r.saveAttempted ==> Parse(args).AddCmd? && Parse(args).key != ""
  {
    match LoadFile(f)
    case NotLoaded(failure) => Outcome(map[], f, [LoadError(failure)], 1, false, None)
    case Loaded(m) => Dispatch(args, m, f, env)
  }

  /** `main`: load clipboard.json into a fresh store, check the arguments and
      apply one operation. Returns what the run did and the order in which a
      `list` visited the keys. */
  method Run(file: FileState, args: seq<string>, save: SaveResult, clipboard: WriteResult)
    returns (r: Outcome, order: seq<string>)
    ensures r == Invoke(file, args, Env(save, clipboard, order))
    ensures LoadFile(file).Loaded? && Parse(args).ListCmd? ==> IsEnumeration(order, LoadFile(file).entries.Keys)
  {
    var store := new Store(file);
    var failure := store.Load();
    if failure.Some? {
      r, order := Outcome(store.data, store.file, [LoadError(failure.value)], 1, false, None), [];
      return;
    }
    assert store.data == LoadFile(file).entries;
    r, order := Execute(store, args, save, clipboard);
  }

  /** The body of `main` after a successful load: the argument checks and
      the call of one store operation. */
  method Execute(store: Store, args: seq<string>, save: SaveResult, clipboard: WriteResult)
    returns (r: Outcome, order: seq<string>)
    modifies store
    ensures r == Dispatch(args, old(store.data), old(store.file), Env(save, clipboard, order))
    ensures store.data == r.data && store.file == r.file
    ensures Parse(args).ListCmd? ==> IsEnumeration(order, old(store.data).Keys)
  {
    order := [];
    if |args| < 2 {
      r := Outcome(store.data, store.file, [Usage], 1, false, None);
      return;
    }
    var command := Lower(args[1]);
    if command == "add" {
      if |args| < 4 {
        r := Outcome(store.data, store.file, [MissingArgs("add"), CommandUsage("add")], 1, false, None);
        return;
      }
      var key := args[2];
      var value := Join(args[3..], " ");
      var out, saveAttempted := store.Add(key, value, save);
      r := Outcome(store.data, store.file, out, 0, saveAttempted, None);
    } else if command == "retrieve" {
      if |args| < 3 {
        r := Outcome(store.data, store.file, [MissingArgs("retrieve"), CommandUsage("retrieve")], 1, false, None);
        return;
      }
      r := RetrieveEffect(store.data, store.file, args[2], false, clipboard);
    } else if command == "copy" {
      if |args| < 3 {
        r := Outcome(store.data, store.file, [MissingArgs("copy"), CommandUsage("copy")], 1, false, None);
        return;
      }
      r := RetrieveEffect(store.data, store.file, args[2], true, clipboard);
    } else if command == "list" {
      var out;
      out, order := store.ListAllKeys();
      r := Outcome(store.data, store.file, out, 0, false, None);
    } else {
      r := Outcome(store.data, store.file, [UnknownCommand(command), Usage], 1, false, None);
    }
  }

  /** Arguments `prog add key tokens...`. */
  function AddArgs(prog: string, key: string, tokens: seq<string>): seq<string>
  {
    [prog, "add", key] + tokens
  }

  /** The four verbs are their own lower-case spelling. */
  lemma VerbsAreLowerCase()
    ensures Lower("add") == "add" && Lower("retrieve") == "retrieve"
    ensures Lower("copy") == "copy" && Lower("list") == "list"
  {
    LowerKeepsLowerCase("add");
    LowerKeepsLowerCase("retrieve");
    LowerKeepsLowerCase("copy");
    LowerKeepsLowerCase("list");
  }

  /** The command an `add` invocation parses to. */
  lemma ParseAdd(prog: string, key: string, tokens: seq<string>)
    requires |tokens| >= 1
    ensures Parse(AddArgs(prog, key, tokens)) == AddCmd(key, Join(tokens, " "))
  {
    VerbsAreLowerCase();
    assert AddArgs(prog, key, tokens)[3..] == tokens;
  }

  /** The command a `retrieve` or `copy` invocation parses to. */
  lemma ParseLookup(prog: string, verb: string, key: string)
    requires verb == "retrieve" || verb == "copy"
    ensures Parse([prog, verb, key]) == RetrieveCmd(key, verb == "copy")
  {
    VerbsAreLowerCase();
  }

  /** A run of `add` on a loadable file is addToClipboard on its entries. */
  lemma AddRun(f: FileState, prog: string, key: string, tokens: seq<string>, env: Env)
    requires LoadFile(f).Loaded? && |tokens| >= 1
    ensures Invoke(f, AddArgs(prog, key, tokens), env)
            == AddEffect(LoadFile(f).entries, f, key, Join(tokens, " "), env.save)
  {
    ParseAdd(prog, key, tokens);
  }

  /** A run of `retrieve` or `copy` on a loadable file is
      retrieveFromClipboard on its entries. */
  lemma LookupRun(f: FileState, prog: string, verb: string, key: string, env: Env)
    requires LoadFile(f).Loaded? && (verb == "retrieve" || verb == "copy")
    ensures Invoke(f, [prog, verb, key], env)
            == RetrieveEffect(LoadFile(f).entries, f, key, verb == "copy", env.clipboard)
  {
    ParseLookup(prog, verb, key);
  }

  /** A run of `list` on a loadable file is listAllKeys on its entries. */
  lemma ListRun(f: FileState, prog: string, env: Env)
    requires LoadFile(f).Loaded?
    ensures Invoke(f, [prog, "list"], env) == ListEffect(LoadFile(f).entries, f, env.order)
  {
    VerbsAreLowerCase();
    assert Parse([prog, "list"]) == ListCmd;
  }

  /** After `add key tokens...` succeeds, the next run's `retrieve key` prints
      exactly the joined value and exits 0. */
  lemma AddThenRetrieve(f: FileState, prog: string, key: string, tokens: seq<string>, env1: Env, env2: Env)
    requires LoadFile(f).Loaded? && key != "" && |tokens| >= 1 && env1.save == Saved
    ensures Invoke(f, AddArgs(prog, key, tokens), env1).out == [Added(Join(tokens, " "), key)]
    ensures Invoke(f, AddArgs(prog, key, tokens), env1).exit == 0
    ensures Invoke(Invoke(f, AddArgs(prog, key, tokens), env1).file, [prog, "retrieve", key], env2).out
            == [Plain(Join(tokens, " "))]
    ensures Invoke(Invoke(f, AddArgs(prog, key, tokens), env1).file, [prog, "retrieve", key], env2).exit == 0
  {
    AddRun(f, prog, key, tokens, env1);
    var r1 := Invoke(f, AddArgs(prog, key, tokens), env1);
    LookupRun(r1.file, prog, "retrieve", key, env2);
  }

  /** Adding to the same key twice leaves only the second value retrievable. */
  lemma SecondAddWins(f: FileState, prog: string, key: string, first: seq<string>, second: seq<string>,
                      env1: Env, env2: Env, env3: Env)
    requires LoadFile(f).Loaded? && key != "" && |first| >= 1 && |second| >= 1
    requires env1.save == Saved && env2.save == Saved
    ensures
      var f1 := Invoke(f, AddArgs(prog, key, first), env1).file;
      var f2 := Invoke(f1, AddArgs(prog, key, second), env2).file;
      Invoke(f2, [prog, "retrieve", key], env3).out == [Plain(Join(second, " "))]
  {
    AddRun(f, prog, key, first, env1);
    var f1 := Invoke(f, AddArgs(prog, key, first), env1).file;
    AddRun(f1, prog, key, second, env2);
    var f2 := Invoke(f1, AddArgs(prog, key, second), env2).file;
    LookupRun(f2, prog, "retrieve", key, env3);
  }

  /** When the save fails because the file cannot be created, the map of the
      failed run holds the new entry but nothing is confirmed, the run exits 0,
      and the next run sees the store as it was before. */
  lemma FailedSaveIsForgotten(f: FileState, prog: string, key: string, tokens: seq<string>, env1: Env, env2: Env)
    requires LoadFile(f).Loaded? && key != "" && |tokens| >= 1 && env1.save == NotSaved(CreateFailed)
    ensures Invoke(f, AddArgs(prog, key, tokens), env1).data[key] == Join(tokens, " ")
    ensures Invoke(f, AddArgs(prog, key, tokens), env1).out == [SaveError(CreateFailed)]
    ensures Invoke(f, AddArgs(prog, key, tokens), env1).exit == 0
    ensures Invoke(Invoke(f, AddArgs(prog, key, tokens), env1).file, [prog, "retrieve", key], env2)
            == Invoke(f, [prog, "retrieve", key], env2)
  {
    AddRun(f, prog, key, tokens, env1);
  }

  /** Asking for a key that is not stored prints "not found" and, as the code
      is written, still exits 0; nothing is written to the OS clipboard. */
  lemma MissingKeyExitsZero(f: FileState, prog: string, verb: string, key: string, env: Env)
    requires LoadFile(f).Loaded? && key != "" && key !in LoadFile(f).entries
    requires verb == "retrieve" || verb == "copy"
    ensures Invoke(f, [prog, verb, key], env).out == [NotFound(key)]
    ensures Invoke(f, [prog, verb, key], env).exit == 0
    ensures Invoke(f, [prog, verb, key], env).copied == None
  {
    LookupRun(f, prog, verb, key, env);
  }

  /** After a successful `add key ...`, the next `list` names exactly the keys
      stored before plus `key`, each once. */
  lemma ListAfterAdd(f: FileState, prog: string, key: string, tokens: seq<string>, env1: Env, env2: Env)
    requires LoadFile(f).Loaded? && key != "" && |tokens| >= 1 && env1.save == Saved
    requires IsEnumeration(env2.order, LoadFile(f).entries.Keys + {key})
    ensures
      var out := Invoke(Invoke(f, AddArgs(prog, key, tokens), env1).file, [prog, "list"], env2).out;
      out[0] == KeysHeader &&
      (forall k :: KeyLine(k) in out <==> k == key || k in LoadFile(f).entries) &&
      (forall i, j :: 0 <= i < j < |out| ==> out[i] != out[j])
  {
    AddRun(f, prog, key, tokens, env1);
    var f1 := Invoke(f, AddArgs(prog, key, tokens), env1).file;
    ListRun(f1, prog, env2);
    var m := LoadFile(f1).entries;
    assert m.Keys == LoadFile(f).entries.Keys + {key};
    ListNamesEveryKeyOnce(m, env2.order);
  }

  /** The example session: starting without clipboard.json, `add greeting
      "hello world"`, `retrieve greeting`, `list`, `retrieve missing`. */
  lemma GreetingSession(env: Env)
    requires env.save == Saved && env.order == ["greeting"]
    ensures
      var r1 := Invoke(Absent, ["clipboard", "add", "greeting", "hello world"], env);
      var r2 := Invoke(r1.file, ["clipboard", "retrieve", "greeting"], env);
      var r3 := Invoke(r2.file, ["clipboard", "list"], env);
      var r4 := Invoke(r3.file, ["clipboard", "retrieve", "missing"], env);
      && r1.out == [Added("hello world", "greeting")] && r1.exit == 0
      && r2.out == [Plain("hello world")] && r2.exit == 0
      && r3.out == [KeysHeader, KeyLine("greeting")] && r3.exit == 0
      && r4.out == [NotFound("missing")] && r4.exit == 0
  {
    AddRun(Absent, "clipboard", "greeting", ["hello world"], env);
    var f1 := Invoke(Absent, AddArgs("clipboard", "greeting", ["hello world"]), env).file;
    assert f1 == Holds(map["greeting" := "hello world"]);
    LookupRun(f1, "clipboard", "retrieve", "greeting", env);
    ListRun(f1, "clipboard", env);
    LookupRun(f1, "clipboard", "retrieve", "missing", env);
  }
}

# proclipboard in Dafny

proclipboard is a command-line key-value store. It is backed by `clipboard.json`, and it can also copy a stored value to the operating system's clipboard. This project models its one Go file, `main.go`:

- the in-memory map `clipboardData` and its file;
- `addToClipboard`, `retrieveFromClipboard` and `listAllKeys`;
- the argument checks and dispatch in `main`.

Modules:

- `Output`: the kinds of line the program prints (`Msg`).
- `Text`: `strings.ToLower` (`Lower`) and `strings.Join` (`Join`), and `Split`, the inverse of joining with a single space.
- `Clipboard`: the file state (`FileState`) and how load and save treat it. It also holds the store operations as pure functions (`AddEffect`, `RetrieveEffect`, `ListEffect`) and the class `Store`, whose fields `data` and `file` stand for `clipboardData` and `clipboard.json`. Its methods `Load`, `Save`, `Add` and `ListAllKeys` change or read those fields step by step, as the Go functions do. Each method is proved equal to the pure function of the same operation.
- `Cli`: `Parse` (the argument checks), `Dispatch` (one command on a loaded map), `Invoke` (a whole run, load included) and `Run`. `Run` is `main` written imperatively over a fresh `Store` (`Execute` is its part after the load), and it is proved equal to `Invoke`. Lemmas about `Invoke` state properties that span several runs, for example that a value added in one run is retrieved in the next.

The model takes these inputs instead of touching the outside world:

- what `clipboard.json` holds at start-up (`FileState`);
- how a save goes (`SaveResult`);
- how the OS clipboard write goes (`WriteResult`);
- the order in which Go ranges over the map (`Env.order`; `ListAllKeys` returns the order it used).

Every run also reports its exit status, whether a save was attempted, and what was handed to the OS clipboard.

Where the program's documented contract and its code disagree, the model follows the code:

- An empty key, a key that is not stored, and a failed save each print a message and return from the operation. `main` then ends normally, so the process exits 0.
- Only a load failure, a missing argument, no verb at all, or an unknown verb exit 1 (`Invoke`'s contract states exactly this).
- A value of `add` is not checked for emptiness: `add k ""` stores the empty string.

## Model

| member | source | states |
|---|---|---|
| Text.LowerChar | main.go:160 | lower-casing never yields an upper-case ASCII letter (so it is idempotent); an ASCII lower-case result that differs from the input comes only from 'A'..'Z', U+0130 or U+212A |
| Text.Lower | main.go:160 | `strings.ToLower` keeps the length, leaves no upper-case ASCII letter, turns each of 'A'..'Z' into its lower-case letter at the same position and keeps lower-case letters; the character-level limits are those of `Text.LowerChar`, and `Text.LowerIdempotent` gives idempotence |
| Text.LowerIdempotent | main.go:160 | lower-casing twice equals lower-casing once |
| Text.LowerKeepsLowerCase | main.go:160-162 | a string of ASCII lower-case letters, such as each of the four verbs, is its own lower-case form |
| Text.Join | main.go:172 | `strings.Join`: no tokens give "", one token is itself, the length is the tokens' total plus one separator between each pair |
| Text.SplitJoin | main.go:170-172 | the `add` value determines its tokens: splitting the space-joined tokens at spaces gives them back when no token contains a space |
| Clipboard.LoadFile | main.go:22-40 | a missing file loads as the empty map; a load fails exactly when the file cannot be opened or decoded |
| Clipboard.SavedFile | main.go:44-59 | after a successful save the file loads back as exactly the saved map; a failed create leaves the file as it was; a failed write leaves a file that does not decode |
| Clipboard.AddEffect | main.go:81-96 | an empty key prints the error and changes neither map nor file, with no save attempted; otherwise the key is bound to the value, overwriting, every other key keeps its value, a save is attempted, and the confirmation naming value and key is printed exactly when the save succeeded; always exit 0 |
| Clipboard.RetrieveEffect | main.go:105-129 | never changes the map or the file and exits 0; an empty key and an absent key give their error messages and no clipboard write; `retrieve` prints exactly the stored value; `copy` hands the stored value to the OS clipboard and prints either the confirmation or the warning followed by the bare value, so the value reaches the user exactly once |
| Clipboard.KeyLines | main.go:139-141 | one line per visited key: a key's line is printed exactly when the key is visited, and keys visited once give lines that are never repeated |
| Clipboard.ListLines | main.go:134-142 | "Clipboard is empty" exactly when the map is empty; otherwise the header, then the key lines, one more line than keys visited, naming exactly the visited keys and repeating none when no key is visited twice |
| Clipboard.ListEffect | main.go:133-143 | listing changes neither map nor file, exits 0, and prints `ListLines`; when each key is visited once, the empty message appears exactly for the empty map and the printed key lines are exactly the stored keys |
| Clipboard.ListNamesEveryKeyOnce | main.go:133-143 | "Clipboard is empty" exactly when the map is empty; otherwise the header then one line per key, as many lines as keys, every stored key listed, no other key, none twice, whatever the visiting order |
| Clipboard.Store.constructor | main.go:17 | the store starts as an empty map with the file as found |
| Clipboard.Store.Load | main.go:22-40 | decoding adds the file's entries to the map; a failure leaves the map alone and reports why |
| Clipboard.Store.Save | main.go:44-59 | reports success exactly when the save succeeded; the file afterwards is `SavedFile` of the current map |
| Clipboard.Store.Add | main.go:81-96 | the map is updated before the save; the new map, file, output and save attempt are those of `AddEffect` |
| Clipboard.Store.ListAllKeys | main.go:133-143 | the loop visits every key exactly once, in an order it chooses, and prints `ListLines` of that order |
| Cli.Parse | main.go:155-201 | fewer than 2 arguments give the usage text; the verb is matched after lower-casing; `add` needs 4 arguments, `retrieve` and `copy` need 3, `list` needs 2; the key is `args[2]` verbatim; the value is `args[3:]` joined by single spaces; missing arguments print the verb's hint; an unknown verb prints its lower-cased name as unknown, then the usage text |
| Cli.VerbCaseIgnored | main.go:160-162 | any spelling of the verb parses as its lower-case spelling does |
| Cli.Dispatch | main.go:160-202 | exit 1 exactly for rejected arguments; only `add` changes the map or the file or attempts a save; only `copy` writes to the OS clipboard |
| Cli.Invoke | main.go:148-203 | exit status is 0 or 1, and 1 exactly when loading fails or the arguments are rejected; a load failure prints only the load error; only an `add` with a non-empty key attempts a save, and only a save changes the file |
| Cli.Run | main.go:148-203 | `main` over a fresh store produces exactly `Invoke`'s outcome, and a `list` visits each loaded key once |
| Cli.Execute | main.go:155-202 | after a successful load, the argument checks and the one store operation produce exactly `Dispatch`'s outcome, and the store's map and file afterwards are that outcome's |
| Cli.ParseAdd | main.go:163-173 | `prog add key tokens...` parses to adding the joined tokens under `key` |
| Cli.AddRun | main.go:163-173 | a run of `add` on a loadable file is `addToClipboard` on its entries |
| Cli.ParseLookup | main.go:175-193 | `prog retrieve key` and `prog copy key` parse to a lookup of `key`, copying to the OS clipboard only for `copy` |
| Cli.LookupRun | main.go:175-193 | a run of `retrieve` or `copy` on a loadable file is `retrieveFromClipboard(key, false)` or `retrieveFromClipboard(key, true)` on its entries |
| Cli.ListRun | main.go:195-196 | a run of `list` on a loadable file is `listAllKeys` on its entries |
| Cli.AddThenRetrieve | main.go:81-129 | after an `add` whose save succeeds (confirmation printed, exit 0), the next run's `retrieve` of that key prints exactly the stored value and exits 0 |
| Cli.SecondAddWins | main.go:87 | two successful `add`s to one key leave only the second value retrievable |
| Cli.FailedSaveIsForgotten | main.go:87-93 | when the file cannot be created, the run's map holds the new entry, only the save error is printed, the exit is 0, and the next run sees the store as before |
| Cli.MissingKeyExitsZero | main.go:111-115 | `retrieve` or `copy` of an absent key prints "not found", makes no clipboard write and exits 0 |
| Cli.ListAfterAdd | main.go:87-143 | after a successful `add`, `list` names exactly the earlier keys plus the new one, each once |
| Cli.GreetingSession | main.go:148-203 | from no file: `add greeting "hello world"`, `retrieve greeting`, `list`, `retrieve missing` print the confirmation, the value, the one key, and "not found", each with exit 0 |

## Left out

- JSON encoding and decoding (`encoding/json`) are not modelled. `FileState` records only whether the file is missing, holds a decodable map, cannot be opened, or does not decode.
- The text of error details (the `%v` parts) and of `printUsage` is not modelled. Each printed line is reduced to its kind (`Msg`) plus the key or value it interpolates.
- `os.Exit` and the process boundary are not modelled. The exit status is a field of the outcome.
- The OS clipboard library (`atotto/clipboard`) is not modelled. Its result is an input.
- Go's map iteration order is an input, not a fixed order. The listing properties are stated for every order that visits each key once.
- Text.LowerChar: models `unicode.ToLower` only for 'A'..'Z', U+0130 and U+212A. These are the characters that lower-case to an ASCII letter, so verb matching is exact. Other non-ASCII letters are kept as they are, which changes only the text of the unknown-command message. Byte strings that are not valid UTF-8 are not modelled.
- A `clipboard.json` holding JSON `null` is not modelled. Go decodes it into a nil map, and a later `add` then panics on assignment to a nil map.
- Clipboard.Store.Load: when decoding fails, the map is left unchanged. Go may already have merged part of the file's entries, but the process exits at once, so nothing observes them.
- Clipboard.SavedFile: a write that fails after `os.Create` is taken to leave a file that does not decode. A write that loses only the trailing newline would still decode.
- Errors from the deferred `file.Close()` are ignored by the source and not modelled.
- Concurrent runs racing on `clipboard.json` are not modelled.

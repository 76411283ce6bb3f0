/** The lines the clipboard tool prints, one constructor per message kind.
    Error details that come from the operating system (the `%v` parts) are not
    represented; every other field is the text the message interpolates. */
module Output {

  /** Why reading clipboard.json at start-up failed. */
  datatype LoadFailure = OpenFailed | DecodeFailed

  /** Why writing clipboard.json failed. */
  datatype SaveFailure = CreateFailed | EncodeFailed

  datatype Msg =
    | LoadError(why: LoadFailure)         // Error loading clipboard: ...
    | Usage                               // the fixed usage block
    | MissingArgs(command: string)        // Error: '<command>' command requires ...
    | CommandUsage(command: string)       // Usage: clipboard <command> ...
    | UnknownCommand(command: string)     // Error: Unknown command '<command>'
    | EmptyKey                            // Error: Key cannot be empty
    | SaveError(failure: SaveFailure)     // Error saving clipboard: ...
    | Added(value: string, key: string)   // Added '<value>' with key '<key>'
    | NotFound(key: string)               // Error: No value found for key '<key>'
    | CopyWarning                         // Warning: Failed to copy to OS clipboard: ...
    | Copied(value: string)               // Copied to OS clipboard: <value>
    | Plain(value: string)                // <value>, printed bare
    | StoreEmpty                          // Clipboard is empty
    | KeysHeader                          // Stored keys:
    | KeyLine(key: string)                //   - <key>
}

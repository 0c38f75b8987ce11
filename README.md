# snake_bevy_wasm_pwa: hash router and automation dispatcher

This project models two small decision components of the `snake_bevy_wasm_pwa`
repository and proves what they do.

**Browser side (`src/main_mod.rs`).**
- `get_args_from_hash_fragment` turns the URL hash into a pseudo command line. It replaces the first character with `/`, puts the application name `snake_bevy_wasm_pwa` in front as word 0, and splits on `/`.
- `routing_by_arguments` always installs the hash-change listener and renders the header. It then chooses the input page, help, a greeting, an upper-cased greeting, one of three fixed error texts, or `Error: ` followed by the upper formatter's error. It looks only at words 1 and 2.
- `on_click_btn_run` checks that both input fields are non-empty. It then opens `/snake_bevy_wasm_pwa/#<arg1>/<arg2>`. When neither input contains `/` (and the browser leaves both as they are, see the percent-encoding line under "## Left out"), that hash parses back to those two words; an input with a `/` gives more words.

Each DOM call is an `Effect` value. A route returns its effects in the order the code performs them. The two phrase formatters of the library module are function parameters, so every result holds for any formatter.

**Automation side (`automation_tasks_rs/src/main.rs`).**
- `match_arguments_and_call_tasks` reads the next argument from the process-argument iterator. It then runs one of seven tasks, runs shell completion, prints help, or reports an unknown task.
- `completion` offers a fixed list of eight sub-commands after `cargo auto`.

The iterator is a class: the argument list plus a cursor. Each task is a tag, and each observable step is a `Step` value.

Modules: `Wrappers` (Option, Result), `Strings` (split on `/` and join), `MainMod`, `AutomationTasks`.

## Model

| member | source | states |
|---|---|---|
| `Strings.Split` | src/main_mod.rs:50-51 | `split("/")` always yields at least one piece, even for the empty string. |
| `Strings.SplitCount` | src/main_mod.rs:50-51 | There is one more piece than the input has slashes. |
| `Strings.SplitPiecesNoSlash` | src/main_mod.rs:50-51 | No piece contains a slash. |
| `Strings.SplitOnSlash` | src/main_mod.rs:50-51 | The left-to-right scan that builds the token vector returns exactly `Split(s)`. |
| `Strings.JoinSplit` | src/main_mod.rs:50-51 | Splitting loses nothing: joining the pieces with `/` gives back the input. |
| `Strings.SplitNoSlash` | src/main_mod.rs:48-50 | A string without `/` (such as the application name) is one piece. |
| `Strings.SplitAround` | src/main_mod.rs:46-50 | A `/` is a piece boundary: `Split(a + "/" + b) == Split(a) + Split(b)`. |
| `Strings.SplitLastEmpty` | src/main_mod.rs:50-51 | The last piece is empty exactly when the input is empty or ends with `/`. |
| `MainMod.SplitEmptyHash` | src/main_mod.rs:44-48 | With an empty hash, the command line splits to the application name alone. |
| `MainMod.SplitNonEmptyHash` | src/main_mod.rs:44-50 | With a non-empty hash, the result is the application name followed by the pieces of the hash after its first character. |
| `MainMod.HashArgs` | src/main_mod.rs:44-51 | Word 0 is always the application name. An empty hash gives `[name]`. Any other hash gives `[name] + Split(hash[1..])`, so the length is 2 plus the number of slashes. |
| `MainMod.GetArgsFromHashFragment` | src/main_mod.rs:31-54 | Replacing the first character with `/`, prefixing the name and splitting yields exactly `HashArgs(hash)`. |
| `MainMod.HashArgsJoin` | src/main_mod.rs:46-51 | Joining words 1.. with `/` gives back the hash without its first character. |
| `MainMod.HashArgsTrailingSlash` | src/main_mod.rs:46-51 | The last word is empty exactly when the hash is one character long or ends with `/`. |
| `MainMod.HashArgsTwoWords` | src/main_mod.rs:44-51 | `#a1/a2`, with no `/` in either word, parses to `[name, a1, a2]`. |
| `MainMod.HashArgsBare` | src/main_mod.rs:44-51 | A one-character hash parses to `[name, ""]`. |
| `MainMod.UpperGreetName` | src/main_mod.rs:216-229 | Succeeds exactly when the formatter does. On success the phrase goes to `div_body`; on failure the formatter's error is returned unchanged. |
| `MainMod.Route` | src/main_mod.rs:61-101 | The listener, then the header, always come first; the match on words 1 and 2 that follows is the helper `MainMod.Dispatch`. After them the route writes into `div_body` or into `div_for_errors`, exactly one of the two. It never opens a URL. |
| `MainMod.OnHashChange` | src/main_mod.rs:105-109 | A hash change routes exactly the parsed hash: `Route(HashArgs(hash))`. |
| `MainMod.RouteDefaultPage` | src/main_mod.rs:71-73 | No word 1 and word 1 `page_with_inputs` render the same input page, whatever follows. |
| `MainMod.RouteHelp` | src/main_mod.rs:74 | `help` puts the help text into `div_body`. |
| `MainMod.RouteUnrecognized` | src/main_mod.rs:97-100 | Any other word 1, the empty word included, gives the "Unrecognized arguments" error whatever follows. |
| `MainMod.RouteBareHash` | src/main_mod.rs:44-100 | Were the hash only one character, word 1 would be empty and reported as unrecognized. A browser never reports a lone `#`, so no page reaches this case. |
| `MainMod.BareHashUrl` | src/main_mod.rs:36-73 | The URL `/snake_bevy_wasm_pwa/#` reaches the router as the empty hash and shows the input page. |
| `MainMod.RouteMissingSecond` | src/main_mod.rs:75-95 | `print` or `upper` without word 2 gives its own "Missing second argument" error. |
| `MainMod.RoutePrint` | src/main_mod.rs:75-78 | `print` with a word 2 (even an empty one) shows the hello phrase of that word in `div_body`. |
| `MainMod.RouteUpper` | src/main_mod.rs:82-95 | `upper` with a word 2: formatter `Ok(p)` puts `p` in `div_body`; `Err(e)` puts `"Error: " + e` in `div_for_errors`. The body is written exactly when the formatter succeeds. |
| `MainMod.RouteReadsWordsOneAndTwo` | src/main_mod.rs:71-101 | Two argument lists that agree on words 1 and 2 route identically. |
| `MainMod.Fragment` | src/main_mod.rs:194-195 | A URL's hash as the browser reports it: a suffix of the URL that starts with `#`, has no `#` before it, and is empty when nothing follows the `#`. |
| `MainMod.FragmentFromFirstHash` | src/main_mod.rs:194-195 | Conversely, when a `#` with no `#` before it is followed by something, the reported hash is the URL from that `#` on. |
| `MainMod.FragmentAfterPath` | src/main_mod.rs:194 | A path with no `#` in it does not change the hash of what follows. |
| `MainMod.UrlFragment` | src/main_mod.rs:194 | A path with no `#`, followed by a real hash, reports that hash, and the path comes before it. |
| `MainMod.OnClickBtnRun` | src/main_mod.rs:189-200 | A URL is opened exactly when both inputs are non-empty. Its hash is `#a1/a2` and its path is `/snake_bevy_wasm_pwa/`. Otherwise "Both arguments are mandatory." is reported. |
| `MainMod.ClickRoundTrip` | src/main_mod.rs:192-195 | For non-empty inputs with no `/`, the opened page's hash parses to `[name, a1, a2]`. |
| `AutomationTasks.Completion` | automation_tasks_rs/src/main.rs:128-153 | Fewer than four process arguments make the indexing fail. The eight sub-commands are offered, for word 2, exactly when word 3 is `cargo-auto` or `auto`. |
| `AutomationTasks.TaskSteps` | automation_tasks_rs/src/main.rs:44-76 | No argument prints only help. `completion` runs completion without the banner. Every other word prints the banner first. |
| `AutomationTasks.ArgsIterator.constructor` | automation_tasks_rs/src/main.rs:35 | A new iterator has all process arguments left to read. |
| `AutomationTasks.ArgsIterator.Next` | automation_tasks_rs/src/main.rs:37 | Returns and consumes the first remaining argument; returns `None` and consumes nothing once none are left. |
| `AutomationTasks.MatchArgumentsAndCallTasks` | automation_tasks_rs/src/main.rs:44-76 | Performs `TaskSteps` on the remaining arguments, and consumes exactly `Consumed` of them. |
| `AutomationTasks.RunAutomation` | automation_tasks_rs/src/main.rs:34-38 | Skips the program name, then dispatches on the rest. |
| `AutomationTasks.RunsExactlyNamedTask` | automation_tasks_rs/src/main.rs:54-68 | A task runs exactly when word 1 is its name. `commit_and_push` receives word 2, or `None` when there is none. |
| `AutomationTasks.KnownTaskRunsOnly` | automation_tasks_rs/src/main.rs:53-68 | A known task word gives exactly the banner and that task: no error and no help. |
| `AutomationTasks.RunsAtMostOneTask` | automation_tasks_rs/src/main.rs:49-75 | No dispatch runs two tasks. |
| `AutomationTasks.UnknownTaskPrintsHelp` | automation_tasks_rs/src/main.rs:69-72 | An unknown word prints the banner, the error and then help, and no task runs. |
| `AutomationTasks.OfferedSubCommands` | automation_tasks_rs/src/main.rs:134-143 | Each offered sub-command runs its task, except `update_automation_tasks_rs`, which the dispatcher reports as unknown. |
| `AutomationTasks.OnlyCommitConsumesSecond` | automation_tasks_rs/src/main.rs:62-64 | A second argument is consumed exactly when word 1 is `commit_and_push` and such an argument exists. |

## Left out

- DOM and browser calls: `wsm::*`, element injection, listener registration and `open_url` are `Effect` values. The model does not capture DOM state or which listener fires.
- HTML templates and `HtmlSourceCode` placeholder substitution: the header and the input page are the tags `Header` and `PageWithInputs`. The input page's pre-filled values `upper` and `world` are not modelled.
- `lib_mod::format_hello_phrase` and `lib_mod::format_upper_hello_phrase`: lib_mod is not part of this model, so both are parameters. The documented "`#upper/WORLD` returns an error" depends on that formatter and is not proved.
- Logging, `dbg!`, `wasm_logger` and the wasm start and panic hooks in `src/lib.rs`: these have no effect on the routing.
- Percent-decoding: the hash is raw text, as in the code. The browser's percent-encoding of characters in the URL that `on_click_btn_run` opens is not modelled. `ClickRoundTrip` holds for inputs the browser leaves as they are.
- GetArgsFromHashFragment: strings are sequences of characters. Rust's `replace_range(..1, "/")` is a byte range and panics when the first character is multi-byte. A browser hash always starts with `#`, so the model replaces the first character.
- Task bodies (`task_build`, `task_release`, `task_doc`, `task_test`, `task_commit_and_push`, `task_publish_to_web`, `task_github_new_release`, and `build_wasm_mod.rs`): these are shell orchestration through an external library. A task that runs is the step `Run(task)`.
- The setup in `main` before dispatch: the panic hook, `tracing_init`, the GitHub and crates.io token setup, and `cl::exit_if_not_run_in_rust_project_root_directory()`. The last call can end the process before any dispatch, `completion` included. `RunAutomation` starts after all of them. `std::env::args()` panics on an argument that is not valid Unicode; arguments are `seq<char>` here, so that panic is not modelled.
- The help text of the automation tool and the ANSI colour codes: printing help is the step `PrintHelp`, and the banner and error lines are `Banner(word)` and `UnknownTask(word)`.
- `cl::completion_return_one_or_more_sub_commands`: it belongs to an external library. The model records what is handed to it: the list and the word being completed.

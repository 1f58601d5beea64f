# pr-pilot dashboard state machine, in Dafny

pr-pilot is a terminal dashboard that lists a user's open GitHub pull requests in a table
and refreshes them every sixty seconds. This project models its Bubble Tea model,
`internal/model.go`, and proves what it does with each message:

- `wrappers.dfy`: `Option` (a nil-able Go value) and `Result` (a Go `(value, error)` pair in which a non-nil error wins).
- `dashboard.dfy` (module `Dashboard`): the model's state (`Model`: table rows and cursor, pull-request list, `loaded`, `err`, token), the messages (`Msg`), commands as data (`Cmd`), and the functions `InitialModel`, `Init`, `FetchPRs`, `Update` and `View`. `InitialModel` is a plain Go function and the other four have value receivers, so each one is a Dafny function returning a new value.
- `properties.dfy` (module `DashboardProperties`): one lemma per message kind, and lemmas about runs of messages processed one at a time (`Run`). These cover the token never changing, the error never being cleared, the list only being replaced by a new list, the rows always being the formatted list, and which screen is shown after any run.
- `runtime.dfy` (module `Runtime`): a pool of pending commands and a stream of input, just detailed enough to count refresh timers (see Findings).

The table widget (`table.Model.Update` and the cursor effect of `SetRows`), the row formatter `createTableRows`, and the results of `config.LoadConfig` and `github.FetchOpenPRs` are code outside `internal/model.go`. They enter as function values: the `Widget` datatype and the parameters of `FetchPRs`. Every property is proved for all of them. The row formatter is not assumed to keep the list's length. `Cmd.Fetch(token)` stands for the bound method value `m.fetchPRs`; `Cmd.Timer` stands for `refreshCmd()`; `Cmd.OpenURL(url)` stands for `openURLCmd(url)`; `Cmd.NoCmd` is a nil command. `Effects` flattens batches and drops nil commands, as `tea.Batch` does.

Some consequences of the code that a reader might not expect, each proved:
- `View` tests `err` first. A loaded dashboard with an error therefore shows only the error screen, not the table (`ErrorScreenHidesTable`).
- Nothing resets `err`. So after the first error, every later screen is an error screen, even after later successful fetches (`StickyErrorScreen`, `ScreenAfterRun`). The data itself is kept (`ErrorKeepsData`).
- The dashboard does not clamp the cursor when a new list arrives. Whatever `SetRows` does to the cursor is left to the widget. Only the bounds checks of the `enter` branch keep the index in range, and Dafny checks that `m.prs[cursor]` is in range in `Update`.
- A refresh tick returns a fetch and a timer and discards the table's own command (line 81).

## Model

| member | source | states |
|---|---|---|
| `Dashboard.HtmlUrl` | internal/model.go:99 | a non-empty URL is the pull request's own non-nil URL; a nil pull request or a nil URL gives the empty string |
| `Dashboard.InitialModel` | internal/model.go:32-42 | the start state has no pull requests and no rows, is not loaded, has no error and keeps the given token |
| `Dashboard.Init` | internal/model.go:51-53 | the first command is a batch that contains a fetch with the model's token and the refresh timer |
| `Dashboard.FetchPRs` | internal/model.go:55-65 | the result is always a list or an `errMsg`; a config failure gives its error; it is a list exactly when both collaborators succeed, and then it is the fetched list unchanged; a fetch failure gives the fetch's error |
| `Dashboard.Update` | internal/model.go:67-109 | for every widget: the token never changes; `loaded` only turns on, and only on a list; the list and the rows change only on a list, to that list and its rows; `err` changes only on an error message, to that error; the cursor is the widget's new cursor, passed through `SetRows` when a list arrives; an `OpenURL` not coming from the table is produced only by `enter` under the full guard, with the URL of the selected pull request |
| `Dashboard.View` | internal/model.go:111-124 | error screen exactly when an error is recorded (showing that error); loading screen exactly when there is no error and nothing is loaded; otherwise the table with the model's rows and cursor |
| `DashboardProperties.InitialModelIsLoading` | internal/model.go:111-117 | the start state shows the loading screen |
| `DashboardProperties.InitIssuesFetchAndTimer` | internal/model.go:51-53 | `Init` requests exactly one fetch with the model's token and one refresh timer, nothing else |
| `DashboardProperties.ConfigFailureSkipsFetch` | internal/model.go:56-59 | on a config failure the result is that error and does not depend on the GitHub fetch at all |
| `DashboardProperties.ListArrival` | internal/model.go:73-78 | a list sets `loaded`, replaces the list and rows, keeps `err` and the token, and requests the table's effects plus one refresh timer |
| `DashboardProperties.RefreshTick` | internal/model.go:80-81 | a tick leaves list, `loaded`, `err`, rows and token alone and requests exactly a fetch with the token and a timer |
| `DashboardProperties.ErrorKeepsData` | internal/model.go:83-87 | an `errMsg` or plain `error` records that error; the list, `loaded` and the rows survive; only the table's command is returned |
| `DashboardProperties.QuitKeys` | internal/model.go:91-92 | "q" and "ctrl+c" return `Quit` and nothing else, in any state; only the cursor may have moved |
| `DashboardProperties.EnterOpensSelected` | internal/model.go:94-104 | "enter" returns `OpenURL` of the selected pull request's URL exactly when it is loaded, the rows are non-empty, the cursor is in `[0, len(prs))` and the URL is non-empty; otherwise it returns the table's command |
| `DashboardProperties.OpenedUrlIsListed` | internal/model.go:94-101 | a URL opened by the dashboard is non-empty and is the URL of a pull request in the list |
| `DashboardProperties.OtherKeysGoToTable` | internal/model.go:89-108 | any other key changes only the cursor and returns the table's command |
| `DashboardProperties.OtherMessagesGoToTable` | internal/model.go:67-72 | any message the switch does not name changes only the cursor and returns the table's command |
| `DashboardProperties.ErrorScreenHidesTable` | internal/model.go:111-114 | with an error recorded, a loaded dashboard shows the error screen |
| `DashboardProperties.LatestError` | internal/model.go:83-87 | the reference "last error in the trace" is present exactly when an error was present before or an error message occurs, and a new one is carried by some message |
| `DashboardProperties.LatestList` | internal/model.go:73-75 | the reference "last list in the trace" is the old list or carried by some list message, and is the old list when no list arrives |
| `DashboardProperties.RunSnoc` | internal/model.go:67-109 | running one more message is one more `Update` on the state so far |
| `DashboardProperties.RunKeepsToken` | internal/model.go:24-30 | every run keeps the token the model was built with |
| `DashboardProperties.RunLatestError` | internal/model.go:83-87 | after any run the error is the last error message's, or the old one; once set it stays set |
| `DashboardProperties.RunLatestList` | internal/model.go:73-78 | after any run the list is the last list message's, or the old one; loaded exactly when it was or a list arrived |
| `DashboardProperties.ConsistentStep` | internal/model.go:73-78 | the start state satisfies the invariant (empty until loaded, then rows formatted from the list), and every `Update` keeps it |
| `DashboardProperties.RunConsistent` | internal/model.go:73-78 | every run from a consistent state keeps the invariant |
| `DashboardProperties.ScreenAfterRun` | internal/model.go:111-124 | from the start, after any run: the last error's screen if any error arrived; else loading until a list arrives; else the table of the last list's rows |
| `DashboardProperties.StickyErrorScreen` | internal/model.go:111-114 | once an error is recorded, every later screen is an error screen |
| `DashboardProperties.EmptyListLoads` | internal/model.go:73-78 | an empty fetched list is a successful load: loaded, the list empty, and the table screen with the rows formatted from the empty list, not the loading or error screen |
| `Runtime.Start` | internal/model.go:51-53 | the program starts with one pending timer and one pending fetch |
| `Runtime.FetchProduces` | internal/model.go:55-65 | whatever the collaborators return, running a fetch command produces a message a fetch may produce (a list or an `errMsg`) |
| `Runtime.TimersMultiply` | internal/model.go:78 | as written: after the first successful fetch, at least two refresh timers are pending |
| `Runtime.FixedUpdate` | internal/model.go:73-78 | the corrected update equals `Update` except that a list no longer arms a timer; with a quiet table only a tick arms one |
| `Runtime.OneTimerPending` | internal/model.go:78-81 | corrected, one step: with one timer pending, running any pending command or receiving any input leaves exactly one pending |
| `Runtime.AlwaysOneTimer` | internal/model.go:78-81 | corrected, whole runs: from a program with one timer pending (as `Start` is), every possible sequence of commands run and input received keeps exactly one pending |

## Findings

| source | as written | input that shows it | evidently intended | confidence | as-written member | corrected member |
|---|---|---|---|---|---|---|
| internal/model.go:78 | the list branch returns `tea.Batch(cmd, refreshCmd())`, a second timer on top of the one each tick arms at line 81 | start, then the first fetch returns a list: two timers are pending; each tick and each successful fetch adds one, so timers and fetches double every sixty seconds | one refresh timer pending at all times; the list branch returns only the table's command | high; not executed | `Runtime.TimersMultiply` | `Runtime.AlwaysOneTimer` |

The runtime these lemmas run on is a model of Bubble Tea, not of `internal/model.go`. A `Program` is the model and the multiset of pending commands. `Fire` runs one pending command, feeds the message it produced to the update function, and adds the effects of the answer. `Deliver` feeds an input message (a key press, a stray `error`, any other message) without consuming a command. `Produces` limits what a command can produce: only a timer produces a tick, a fetch produces a list or an `errMsg`, and only a fetch produces a list. `Execute` applies a sequence of such events. `Runtime.Version` picks between `Update` as written and `FixedUpdate`.

`Runtime.FixedUpdate` is used only by this finding. The rest of the model keeps `Dashboard.Update` as written, because every other property is about the code as it stands.

## Left out

- Table widget internals: cursor movement on up/down, row rendering, `SetStyles`, focus and height. They are library code. The cursor the widget produces and its command are arbitrary function values.
- Column and row formatting (`createTableColumns`, `createTableRows`), `errorView`, `loadingView`, the styles and the help text. Only the choice of screen and the rows it shows are modelled.
- `config.LoadConfig`, `github.FetchOpenPRs` and `openURLCmd` are I/O. Their results are parameters, and `openURLCmd(url)` is the command value `OpenURL(url)`.
- The sixty-second `time.Sleep` in `refreshCmd`, and how Bubble Tea runs `tea.Batch` and commands concurrently. Commands are data. `Runtime` runs one pending command at a time and ignores wall-clock order.
- `Runtime` assumes the table widget arms no refresh timer of its own (`QuietTable`) for the corrected half, and does not model which message `openURLCmd` or `tea.Quit` produce beyond `Produces`.
- DashboardProperties.Run: it feeds every message to `Update` and does not stop after `Quit`. Terminating the program is the runtime's job.
- Go's `(value, error)` returns are `Result` values: a non-nil error wins and any value returned beside it is dropped, as the code's `err != nil` checks do.

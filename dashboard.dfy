/**
 * The pull-request dashboard's Bubble Tea model (internal/model.go): the state it keeps,
 * the messages it reacts to, the commands it asks the runtime to run, and the three
 * functions Init, Update and View, all with value receivers, so every step returns a
 * new model.
 *
 * The table widget, the row formatter and the configuration and GitHub clients are
 * code outside this file; they enter as function values and every property below is
 * stated for all of them.
 */
module Dashboard {
  import opened Wrappers

  /** A non-nil Go error; only its identity matters here. */
  datatype Error = Error(message: string)

  /** The fields of a GitHub pull request the dashboard touches; `htmlUrl` is a nullable pointer. */
  datatype PullRequest = PullRequest(number: int, title: string, author: string, htmlUrl: Option<string>)

  /** An element of the fetched list: a `*github.PullRequest`, which may be nil. */
  type PullRequestRef = Option<PullRequest>

  /** The go-github getter: the empty string for a nil pull request or a nil URL. */
  function HtmlUrl(pr: PullRequestRef): (url: string)
    ensures url != "" ==> pr.Some? && pr.value.htmlUrl == Some(url)
    ensures pr.Some? && pr.value.htmlUrl.Some? ==> url == pr.value.htmlUrl.value
  {
    match pr
    case Some(p) => (match p.htmlUrl case Some(u) => u case None => "")
    case None => ""
  }

  /** One rendered table row: its cells. */
  type Row = seq<string>

  /** The part of the bubbles table that the model reads: its rows and its cursor. */
  datatype Table = Table(rows: seq<Row>, cursor: int)

  /** The loaded configuration: the repositories to watch. */
  datatype Config = Config(repos: seq<string>)

  /**
   * The messages Update distinguishes: a fetched list, the refresh tick, an `errMsg`
   * produced by the fetch, any other `error` value, a key press (as its string form),
   * and every other message (window size, mouse, ...).
   */
  datatype Msg =
    | Prs(list: seq<PullRequestRef>)
    | Refresh
    | ErrMsg(error: Error)
    | Err(error: Error)
    | Key(key: string)
    | Other

  /**
   * Commands as data. `Fetch(token)` is the bound method value `m.fetchPRs`, whose only
   * input from the model is the token; `Timer` is `refreshCmd()`, a refresh tick after
   * sixty seconds; `NoCmd` is a nil `tea.Cmd`.
   */
  datatype Cmd =
    | NoCmd
    | Fetch(token: string)
    | Timer
    | OpenURL(url: string)
    | Quit
    | Batch(cmds: seq<Cmd>)

  /** The dashboard state: the `model` struct. */
  datatype Model = Model(table: Table, prs: seq<PullRequestRef>, loaded: bool, err: Option<Error>, token: string)

  /** What Update returns: the next model and the command for the runtime. */
  datatype Step = Step(next: Model, cmd: Cmd)

  /** What View draws; only which screen is chosen, and the table it shows, are modelled. */
  datatype Screen =
    | ErrorScreen(error: Error)
    | LoadingScreen
    | TableScreen(rows: seq<Row>, cursor: int)

  /**
   * The widget code this file calls but does not define:
   * `react` is `table.Model.Update`, giving the new cursor and the table's own command
   * (it never touches the rows); `createRows` is `createTableRows`, whose length is not
   * assumed to match the list; `cursorAfterSetRows` is whatever `SetRows` does to the cursor.
   */
  datatype Widget = Widget(
    react: (Table, Msg) -> (int, Cmd),
    createRows: seq<PullRequestRef> -> seq<Row>,
    cursorAfterSetRows: (Table, seq<Row>) -> int)

  /** The effects a command requests once the runtime flattens batches and drops nil commands. */
  function Effects(c: Cmd): (effects: multiset<Cmd>)
    decreases c, 1
  {
    match c
    case NoCmd => multiset{}
    case Batch(cs) => EffectsOf(cs)
    case _ => multiset{c}
  }

  /** The effects of a batch's commands, in order. */
  function EffectsOf(cs: seq<Cmd>): (effects: multiset<Cmd>)
    decreases cs, 0
  {
    if cs == [] then multiset{} else Effects(cs[0]) + EffectsOf(cs[1..])
  }

  /** `InitialModel`: an empty, focused table, nothing loaded, no error, the given token. */
  function InitialModel(token: string): (m: Model)
    ensures m.prs == [] && m.table.rows == []
    ensures !m.loaded && m.err == None
    ensures m.token == token
  {
    Model(Table([], 0), [], false, None, token)
  }

  /** `Init`: fetch now and arm the refresh timer. */
  function Init(m: Model): (c: Cmd)
    ensures c.Batch? && Fetch(m.token) in c.cmds && Timer in c.cmds
  {
    Batch([Fetch(m.token), Timer])
  }

  /**
   * `fetchPRs`: load the configuration, then list the open pull requests of its
   * repositories with the model's token. `loadConfig` and `fetchOpenPRs` are the two
   * collaborators' results.
   */
  function FetchPRs(
    token: string,
    loadConfig: Result<Config, Error>,
    fetchOpenPRs: (seq<string>, string) -> Result<seq<PullRequestRef>, Error>): (msg: Msg)
    ensures msg.Prs? || msg.ErrMsg?
    ensures loadConfig.Failure? ==> msg == ErrMsg(loadConfig.error)
    ensures msg.Prs? <==> loadConfig.Ok? && fetchOpenPRs(loadConfig.value.repos, token).Ok?
    ensures msg.Prs? ==> msg.list == fetchOpenPRs(loadConfig.value.repos, token).value
    ensures msg.ErrMsg? && loadConfig.Ok? ==> msg.error == fetchOpenPRs(loadConfig.value.repos, token).error
  {
    match loadConfig
    case Failure(e) => ErrMsg(e)
    case Ok(cfg) =>
      match fetchOpenPRs(cfg.repos, token)
      case Failure(e) => ErrMsg(e)
      case Ok(prs) => Prs(prs)
  }

  /** The guard of the `enter` branch: a loaded, non-empty table whose cursor selects a pull request with a URL. */
  predicate CanOpen(m: Model)
  {
    m.loaded && |m.table.rows| > 0 && 0 <= m.table.cursor < |m.prs| && HtmlUrl(m.prs[m.table.cursor]) != ""
  }

  /**
   * `Update`: the table reacts to every message first; then the message decides the rest.
   * The ensures clauses say what each field becomes whatever the widget does: the token
   * never changes, `loaded` only turns on, the list and the rows are replaced only by a
   * fetched list, the error is only ever overwritten by another error, and the cursor is
   * the widget's (after `SetRows` when a list arrives).
   */
  function Update(w: Widget, m: Model, msg: Msg): (s: Step)
    ensures s.next.token == m.token
    ensures s.next.loaded == (m.loaded || msg.Prs?)
    ensures s.next.prs == (if msg.Prs? then msg.list else m.prs)
    ensures s.next.table.rows == (if msg.Prs? then w.createRows(msg.list) else m.table.rows)
    ensures s.next.err == (if msg.ErrMsg? || msg.Err? then Some(msg.error) else m.err)
    ensures !msg.Prs? ==> s.next.table.cursor == w.react(m.table, msg).0
    ensures msg.Prs? ==> s.next.table.cursor == w.cursorAfterSetRows(Table(m.table.rows, w.react(m.table, msg).0), s.next.table.rows)
    ensures s.cmd.OpenURL? && s.cmd != w.react(m.table, msg).1 ==>
              msg == Key("enter") && CanOpen(s.next) && s.cmd.url == HtmlUrl(s.next.prs[s.next.table.cursor])
  {
    var (cursor, sub) := w.react(m.table, msg);
    var m' := m.(table := m.table.(cursor := cursor));
    match msg
    case Prs(list) =>
      var rows := w.createRows(list);
      var t := Table(rows, w.cursorAfterSetRows(m'.table, rows));
      Step(m'.(loaded := true, prs := list, table := t), Batch([sub, Timer]))
    case Refresh =>
      Step(m', Batch([Fetch(m'.token), Timer]))
    case ErrMsg(e) =>
      Step(m'.(err := Some(e)), sub)
    case Err(e) =>
      Step(m'.(err := Some(e)), sub)
    case Key(k) =>
      if k == "q" || k == "ctrl+c" then
        Step(m', Quit)
      else if k == "enter" && CanOpen(m') then
        Step(m', OpenURL(HtmlUrl(m'.prs[m'.table.cursor])))
      else
        Step(m', sub)
    case Other =>
      Step(m', sub)
  }

  /** `View`: an error screen whenever an error is recorded, else a loading screen until loaded, else the table. */
  function View(m: Model): (v: Screen)
    ensures v.ErrorScreen? <==> m.err.Some?
    ensures v.ErrorScreen? ==> v.error == m.err.value
    ensures v.LoadingScreen? <==> m.err.None? && !m.loaded
    ensures v.TableScreen? <==> m.err.None? && m.loaded
    ensures v.TableScreen? ==> v.rows == m.table.rows && v.cursor == m.table.cursor
  {
    if m.err.Some? then ErrorScreen(m.err.value)
    else if !m.loaded then LoadingScreen
    else TableScreen(m.table.rows, m.table.cursor)
  }
}

/**
 * What the dashboard promises, message by message and over whole runs of messages.
 * Every lemma holds for every widget, row formatter and fetch result.
 */
module DashboardProperties {
  import opened Wrappers
  import opened Dashboard

  /** The effects of a two-command batch are those of its two members. */
  lemma EffectsOfPair(a: Cmd, b: Cmd)
    ensures Effects(Batch([a, b])) == Effects(a) + Effects(b)
  {
    assert [a, b][1..] == [b];
    assert [b][1..] == [];
    assert EffectsOf([b]) == Effects(b);
  }

  /** The start state: nothing loaded, no error, no pull requests, the token kept, a loading screen. */
  lemma InitialModelIsLoading(token: string)
    ensures View(InitialModel(token)) == LoadingScreen
  {
  }

  /** `Init` asks for exactly one fetch with the model's token and one refresh timer. */
  lemma InitIssuesFetchAndTimer(m: Model)
    ensures Effects(Init(m)) == multiset{Fetch(m.token), Timer}
  {
    EffectsOfPair(Fetch(m.token), Timer);
  }

  /** A configuration failure yields its error, and the GitHub fetch has no say in the result. */
  lemma ConfigFailureSkipsFetch(
    token: string, e: Error,
    fetch1: (seq<string>, string) -> Result<seq<PullRequestRef>, Error>,
    fetch2: (seq<string>, string) -> Result<seq<PullRequestRef>, Error>)
    ensures FetchPRs(token, Failure(e), fetch1) == FetchPRs(token, Failure(e), fetch2) == ErrMsg(e)
  {
  }

  /** A fetched list loads the dashboard, replaces the list and the rows, keeps the error and re-arms the timer. */
  lemma ListArrival(w: Widget, m: Model, list: seq<PullRequestRef>)
    ensures var s := Update(w, m, Prs(list));
      && s.next.loaded && s.next.prs == list && s.next.table.rows == w.createRows(list)
      && s.next.err == m.err && s.next.token == m.token
      && Effects(s.cmd) == Effects(w.react(m.table, Prs(list)).1) + multiset{Timer}
  {
    EffectsOfPair(w.react(m.table, Prs(list)).1, Timer);
  }

  /** A refresh tick changes no data and asks for a fetch and a new timer, dropping the table's command. */
  lemma RefreshTick(w: Widget, m: Model)
    ensures var s := Update(w, m, Refresh);
      && s.next.prs == m.prs && s.next.loaded == m.loaded && s.next.err == m.err
      && s.next.table.rows == m.table.rows && s.next.token == m.token
      && Effects(s.cmd) == multiset{Fetch(m.token), Timer}
  {
    EffectsOfPair(Fetch(m.token), Timer);
  }

  /** Whether a message carries an error: an `errMsg` from the fetch or any other `error`. */
  predicate IsError(msg: Msg)
  {
    msg.ErrMsg? || msg.Err?
  }

  /** An error is recorded; the loaded list, the loaded flag and the rows survive it. */
  lemma ErrorKeepsData(w: Widget, m: Model, msg: Msg)
    requires IsError(msg)
    ensures var s := Update(w, m, msg);
      && s.next.err == Some(msg.error)
      && s.next.prs == m.prs && s.next.loaded == m.loaded && s.next.table.rows == m.table.rows
      && s.cmd == w.react(m.table, msg).1
  {
  }

  /** "q" and "ctrl+c" quit, loaded or not, failed or not, and request nothing else. */
  lemma QuitKeys(w: Widget, m: Model, k: string)
    requires k == "q" || k == "ctrl+c"
    ensures var s := Update(w, m, Key(k));
      && s.cmd == Quit && Effects(s.cmd) == multiset{Quit}
      && s.next == m.(table := m.table.(cursor := w.react(m.table, Key(k)).0))
  {
  }

  /**
   * "enter" opens the URL of the pull request under the cursor exactly when the table is
   * loaded and non-empty, the cursor is inside the list and the URL is non-empty;
   * otherwise only the table's own command is returned.
   */
  lemma EnterOpensSelected(w: Widget, m: Model)
    ensures var (cursor, sub) := w.react(m.table, Key("enter"));
      var s := Update(w, m, Key("enter"));
      && s.next.table.cursor == cursor
      && (m.loaded && |m.table.rows| > 0 && 0 <= cursor < |m.prs| && HtmlUrl(m.prs[cursor]) != "" ==>
            s.cmd == OpenURL(HtmlUrl(m.prs[cursor])))
      && (!(m.loaded && |m.table.rows| > 0 && 0 <= cursor < |m.prs| && HtmlUrl(m.prs[cursor]) != "") ==>
            s.cmd == sub)
  {
  }

  /** A URL that "enter" opens is the non-empty URL of a pull request in the loaded list. */
  lemma OpenedUrlIsListed(w: Widget, m: Model, msg: Msg)
    ensures var s := Update(w, m, msg);
      s.cmd.OpenURL? && s.cmd != w.react(m.table, msg).1 ==>
        s.cmd.url != ""
        && exists i :: 0 <= i < |m.prs| && m.prs[i].Some? && m.prs[i].value.htmlUrl == Some(s.cmd.url)
  {
  }

  /** Any other key is left to the table: only the cursor may move, and the table's command is returned. */
  lemma OtherKeysGoToTable(w: Widget, m: Model, k: string)
    requires k != "q" && k != "ctrl+c" && k != "enter"
    ensures var (cursor, sub) := w.react(m.table, Key(k));
      Update(w, m, Key(k)) == Step(m.(table := m.table.(cursor := cursor)), sub)
  {
  }

  /** Any other message (window size, mouse, ...) is left to the table in the same way. */
  lemma OtherMessagesGoToTable(w: Widget, m: Model)
    ensures var (cursor, sub) := w.react(m.table, Other);
      Update(w, m, Other) == Step(m.(table := m.table.(cursor := cursor)), sub)
  {
  }

  /** The error screen wins over loaded data: a loaded dashboard with an error shows only the error. */
  lemma ErrorScreenHidesTable(m: Model)
    requires m.loaded && m.err.Some?
    ensures View(m) == ErrorScreen(m.err.value)
  {
  }

  // ---------------------------------------------------------------------------
  // Runs: the runtime feeds messages to Update one at a time, in arrival order.
  // ---------------------------------------------------------------------------

  /** The model after processing `msgs` in order, starting from `m`. */
  function Run(w: Widget, m: Model, msgs: seq<Msg>): (last: Model)
    decreases |msgs|
  {
    if msgs == [] then m else Run(w, Update(w, m, msgs[0]).next, msgs[1..])
  }

  /** Processing one more message is one more Update. */
  lemma {:induction false} RunSnoc(w: Widget, m: Model, msgs: seq<Msg>, msg: Msg)
    ensures Run(w, m, msgs + [msg]) == Update(w, Run(w, m, msgs), msg).next
    decreases |msgs|
  {
    if msgs == [] {
      assert [msg][1..] == [];
    } else {
      assert (msgs + [msg])[1..] == msgs[1..] + [msg];
      RunSnoc(w, Update(w, m, msgs[0]).next, msgs[1..], msg);
    }
  }

  /** The error of the last error message in `msgs`, or `err` when there is none. */
  function LatestError(err: Option<Error>, msgs: seq<Msg>): (r: Option<Error>)
    ensures r.Some? <==> err.Some? || HasError(msgs)
    ensures r.Some? && r != err ==> exists i :: 0 <= i < |msgs| && msgs[i] in {ErrMsg(r.value), Err(r.value)}
    decreases |msgs|
  {
    if msgs == [] then err
    else if IsError(msgs[|msgs| - 1]) then Some(msgs[|msgs| - 1].error)
    else LatestError(err, msgs[..|msgs| - 1])
  }

  /** The list of the last fetched-list message in `msgs`, or `prs` when there is none. */
  function LatestList(prs: seq<PullRequestRef>, msgs: seq<Msg>): (r: seq<PullRequestRef>)
    ensures r == prs || exists i :: 0 <= i < |msgs| && msgs[i] == Prs(r)
    ensures !HasList(msgs) ==> r == prs
    decreases |msgs|
  {
    if msgs == [] then prs
    else if msgs[|msgs| - 1].Prs? then msgs[|msgs| - 1].list
    else LatestList(prs, msgs[..|msgs| - 1])
  }

  /** Some message in `msgs` is a fetched list. */
  predicate HasList(msgs: seq<Msg>)
  {
    exists i :: 0 <= i < |msgs| && msgs[i].Prs?
  }

  /** Some message in `msgs` carries an error. */
  predicate HasError(msgs: seq<Msg>)
  {
    exists i :: 0 <= i < |msgs| && IsError(msgs[i])
  }

  /** The token the model was built with is the one every later fetch uses. */
  lemma {:induction false} RunKeepsToken(w: Widget, m: Model, msgs: seq<Msg>)
    ensures Run(w, m, msgs).token == m.token
    decreases |msgs|
  {
    if msgs != [] {
      RunKeepsToken(w, Update(w, m, msgs[0]).next, msgs[1..]);
    }
  }

  /** After a run, the recorded error is that of the last error message, or the old one; nothing clears it. */
  lemma {:induction false} RunLatestError(w: Widget, m: Model, msgs: seq<Msg>)
    ensures Run(w, m, msgs).err == LatestError(m.err, msgs)
    ensures m.err.Some? || HasError(msgs) ==> Run(w, m, msgs).err.Some?
    decreases |msgs|
  {
    if msgs != [] {
      var init, last := msgs[..|msgs| - 1], msgs[|msgs| - 1];
      assert msgs == init + [last];
      RunSnoc(w, m, init, last);
      RunLatestError(w, m, init);
      if HasError(msgs) && !IsError(last) {
        var i :| 0 <= i < |msgs| && IsError(msgs[i]);
        assert IsError(init[i]);
      }
    }
  }

  /**
   * After a run, the list is that of the last fetched-list message, or the old one,
   * and the dashboard is loaded exactly when it was already or some list arrived.
   */
  lemma {:induction false} RunLatestList(w: Widget, m: Model, msgs: seq<Msg>)
    ensures Run(w, m, msgs).prs == LatestList(m.prs, msgs)
    ensures Run(w, m, msgs).loaded == (m.loaded || HasList(msgs))
    decreases |msgs|
  {
    if msgs != [] {
      var init, last := msgs[..|msgs| - 1], msgs[|msgs| - 1];
      assert msgs == init + [last];
      RunSnoc(w, m, init, last);
      RunLatestList(w, m, init);
      if HasList(msgs) && !last.Prs? {
        var i :| 0 <= i < |msgs| && msgs[i].Prs?;
        assert init[i].Prs?;
      }
      if HasList(init) {
        var i :| 0 <= i < |init| && init[i].Prs?;
        assert msgs[i].Prs?;
      }
    }
  }

  /**
   * The state invariant of every reachable model: before the first list the list and
   * the rows are empty, afterwards the rows are those formatted from the list.
   */
  predicate Consistent(w: Widget, m: Model)
  {
    && (!m.loaded ==> m.prs == [] && m.table.rows == [])
    && (m.loaded ==> m.table.rows == w.createRows(m.prs))
  }

  /** The start state is consistent and every Update keeps it so. */
  lemma ConsistentStep(w: Widget, m: Model, msg: Msg)
    ensures Consistent(w, InitialModel(m.token))
    ensures Consistent(w, m) ==> Consistent(w, Update(w, m, msg).next)
  {
  }

  /** Every run from a consistent model ends in a consistent model. */
  lemma {:induction false} RunConsistent(w: Widget, m: Model, msgs: seq<Msg>)
    requires Consistent(w, m)
    ensures Consistent(w, Run(w, m, msgs))
    decreases |msgs|
  {
    if msgs != [] {
      ConsistentStep(w, m, msgs[0]);
      RunConsistent(w, Update(w, m, msgs[0]).next, msgs[1..]);
    }
  }

  /**
   * From the start state, the screen after a run is: the last error, if any error ever
   * arrived; otherwise the loading screen until a list arrives; otherwise the table of
   * the last list's rows.
   */
  lemma ScreenAfterRun(w: Widget, token: string, msgs: seq<Msg>)
    ensures var v := View(Run(w, InitialModel(token), msgs));
      && (HasError(msgs) ==> v == ErrorScreen(LatestError(None, msgs).value))
      && (!HasError(msgs) && !HasList(msgs) ==> v == LoadingScreen)
      && (!HasError(msgs) && HasList(msgs) ==>
            v.TableScreen? && v.rows == w.createRows(LatestList([], msgs)))
  {
    var m0 := InitialModel(token);
    RunLatestError(w, m0, msgs);
    RunLatestList(w, m0, msgs);
    ConsistentStep(w, m0, Other);
    RunConsistent(w, m0, msgs);
  }

  /** Once an error is recorded, every later screen is an error screen, whatever lists arrive. */
  lemma StickyErrorScreen(w: Widget, m: Model, msgs: seq<Msg>)
    requires m.err.Some?
    ensures View(Run(w, m, msgs)).ErrorScreen?
  {
    RunLatestError(w, m, msgs);
  }

  /** A successful fetch of an empty list is a legitimate load: an empty table, not an error. */
  lemma EmptyListLoads(w: Widget, token: string)
    ensures var m := Run(w, InitialModel(token), [Prs([])]);
      && m.loaded && m.prs == [] && View(m) == TableScreen(w.createRows([]), m.table.cursor)
  {
  }
}

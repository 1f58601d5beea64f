/**
 * An abstract Bubble Tea runtime, just detailed enough to count refresh timers: it holds
 * the pool of commands still to run, runs any one of them, feeds the message it produced
 * to the update function and adds the effects of the command that comes back.
 *
 * Under it, the dashboard as written arms a second refresh timer on every successful
 * fetch (internal/model.go:78) on top of the one each tick arms (line 81), so the
 * timers, and with them the fetches, multiply. `FixedUpdate` drops the timer from the
 * list branch and keeps exactly one timer pending.
 *
 * Two kinds of event drive the program: the runtime runs a pending command and feeds
 * the message it produced to the update function (`Fire`), or a message arrives from
 * outside, a key press or any other input, without consuming a command (`Deliver`).
 */
module Runtime {
  import opened Dashboard
  import opened Wrappers
  import DashboardProperties

  /** The current model and the commands the runtime has yet to run. */
  datatype Program = Program(m: Model, pending: multiset<Cmd>)

  /** The program after `InitialModel` and `Init`. */
  function Start(token: string): (p: Program)
    ensures p.m == InitialModel(token)
    ensures p.pending[Timer] == 1 && p.pending[Fetch(token)] == 1
  {
    var m := InitialModel(token);
    DashboardProperties.InitIssuesFetchAndTimer(m);
    Program(m, Effects(Init(m)))
  }

  /**
   * Which messages a command can produce: only a refresh timer produces a refresh tick,
   * a fetch produces a pull-request list or an `errMsg` (as `FetchPRs` does), and no
   * other command produces a list.
   */
  predicate Produces(c: Cmd, msg: Msg)
  {
    && (msg == Refresh <==> c == Timer)
    && (c.Fetch? ==> msg.Prs? || msg.ErrMsg?)
    && (msg.Prs? ==> c.Fetch?)
  }

  /** What a fetch command produces when it runs is always a message it may produce. */
  lemma FetchProduces(
    token: string, loadConfig: Result<Config, Error>,
    fetchOpenPRs: (seq<string>, string) -> Result<seq<PullRequestRef>, Error>)
    ensures Produces(Fetch(token), FetchPRs(token, loadConfig, fetchOpenPRs))
  {
  }

  /** Messages from outside the program: key presses, stray errors and every other input. */
  predicate IsInput(msg: Msg)
  {
    msg.Key? || msg.Err? || msg.Other?
  }

  /** The table widget never arms a refresh timer of its own. */
  ghost predicate QuietTable(w: Widget)
  {
    forall t, msg :: Timer !in Effects(w.react(t, msg).1)
  }

  /** Update with the timer dropped from the list branch: a list returns only the table's command. */
  function FixedUpdate(w: Widget, m: Model, msg: Msg): (s: Step)
    ensures s.next == Update(w, m, msg).next
    ensures s.cmd == (if msg.Prs? then w.react(m.table, msg).1 else Update(w, m, msg).cmd)
    ensures QuietTable(w) && msg != Refresh ==> Timer !in Effects(s.cmd)
  {
    var s := Update(w, m, msg);
    if msg.Prs? then Step(s.next, w.react(m.table, msg).1) else s
  }

  /** The update function the program runs: the code as written, or with the list branch corrected. */
  datatype Version = AsWritten | Corrected

  /** The step the chosen version takes on a message. */
  function Answer(v: Version, w: Widget, m: Model, msg: Msg): Step
  {
    match v
    case AsWritten => Update(w, m, msg)
    case Corrected => FixedUpdate(w, m, msg)
  }

  /** The runtime runs the pending command `c`, which produced `msg`, and queues the effects of the answer. */
  function Fire(p: Program, v: Version, w: Widget, c: Cmd, msg: Msg): Program
    requires c in p.pending
  {
    var s := Answer(v, w, p.m, msg);
    Program(s.next, p.pending - multiset{c} + Effects(s.cmd))
  }

  /** An input message arrives; the effects of the answer join the pending commands. */
  function Deliver(p: Program, v: Version, w: Widget, msg: Msg): Program
  {
    var s := Answer(v, w, p.m, msg);
    Program(s.next, p.pending + Effects(s.cmd))
  }

  /** One thing that can happen to a running program. */
  datatype Event = Ran(c: Cmd, msg: Msg) | Input(msg: Msg)

  /** The program after the events, or None once an event could not have happened (a command not pending, a message it cannot produce, an input that is not input). */
  function Execute(p: Program, v: Version, w: Widget, events: seq<Event>): Option<Program>
    decreases |events|
  {
    if events == [] then Some(p)
    else match events[0]
      case Ran(c, msg) =>
        if c in p.pending && Produces(c, msg) then Execute(Fire(p, v, w, c, msg), v, w, events[1..]) else None
      case Input(msg) =>
        if IsInput(msg) then Execute(Deliver(p, v, w, msg), v, w, events[1..]) else None
  }

  /**
   * As written: once the first fetch succeeds, two refresh timers are pending (the one
   * from `Init` and the one armed by the list branch), whatever the widget does.
   */
  lemma TimersMultiply(w: Widget, token: string, list: seq<PullRequestRef>)
    ensures var q := Execute(Start(token), AsWritten, w, [Ran(Fetch(token), Prs(list))]);
      q.Some? && q.value.pending[Timer] >= 2
  {
    var p0 := Start(token);
    DashboardProperties.ListArrival(w, p0.m, list);
    assert Effects(Update(w, p0.m, Prs(list)).cmd)[Timer] >= 1;
    assert (p0.pending - multiset{Fetch(token)})[Timer] == 1;
    var p1 := Fire(p0, AsWritten, w, Fetch(token), Prs(list));
    assert Execute(p1, AsWritten, w, []) == Some(p1);
  }

  /**
   * Corrected, one step: with a quiet table, a program with one pending refresh timer
   * still has exactly one after running any pending command or receiving any input.
   */
  lemma OneTimerPending(w: Widget, p: Program, c: Cmd, msg: Msg)
    requires QuietTable(w) && p.pending[Timer] == 1
    ensures c in p.pending && Produces(c, msg) ==> Fire(p, Corrected, w, c, msg).pending[Timer] == 1
    ensures IsInput(msg) ==> Deliver(p, Corrected, w, msg).pending[Timer] == 1
  {
    if msg == Refresh {
      DashboardProperties.RefreshTick(w, p.m);
    }
  }

  /**
   * Corrected, whole runs: from the start, whatever commands run and whatever input
   * arrives, exactly one refresh timer is pending.
   */
  lemma {:induction false} AlwaysOneTimer(w: Widget, p: Program, events: seq<Event>)
    requires QuietTable(w) && p.pending[Timer] == 1
    ensures var q := Execute(p, Corrected, w, events); q.Some? ==> q.value.pending[Timer] == 1
    decreases |events|
  {
    if events != [] {
      match events[0]
      case Ran(c, msg) =>
        OneTimerPending(w, p, c, msg);
        if c in p.pending && Produces(c, msg) {
          AlwaysOneTimer(w, Fire(p, Corrected, w, c, msg), events[1..]);
        }
      case Input(msg) =>
        OneTimerPending(w, p, NoCmd, msg);
        if IsInput(msg) {
          AlwaysOneTimer(w, Deliver(p, Corrected, w, msg), events[1..]);
        }
    }
  }
}

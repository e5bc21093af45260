/** The session-level decisions of main.go: where the host comes from, whether
    a model name was given, and what the UI's final choice means for the next
    download session. Flag parsing, logging, the log file and `os.Exit` are
    not part of this model; the flag values and `OLLAMA_HOST` are parameters. */
module App {
  import opened GoBase
  import opened Client
  import ClientProperties
  import Ui

  const DefaultHost: string := "http://localhost:11434"

  /** Lines 48-53: the -host flag, else `OLLAMA_HOST`, else the local default. */
  function ResolveHost(flagHost: string, env: string): (h: string)
    ensures h != ""
    ensures flagHost != "" ==> h == flagHost
    ensures flagHost == "" && env != "" ==> h == env
    ensures flagHost == "" && env == "" ==> h == DefaultHost
  {
    if flagHost != "" then flagHost
    else if env != "" then env
    else DefaultHost
  }

  /** What the outer loop does after a session. */
  datatype Next = Restart(continueUntilComplete: bool) | Stop

  /** Lines 103-121: the two "Continue" answers start another session with
      the flag they name; "Quit" and every other string, the empty choice of a
      finished download included, set `shouldQuit`. The default branch stops
      whatever the flag is, so the flag is not an input here. */
  function NextSession(choice: string): (n: Next)
    ensures n == Restart(false) <==> choice == ContinueOnce
    ensures n == Restart(true) <==> choice == ContinueAll
    ensures n == Stop <==> choice != ContinueOnce && choice != ContinueAll
  {
    if choice == ContinueOnce then Restart(false)
    else if choice == ContinueAll then Restart(true)
    else Stop
  }

  /** The outer loop (lines 55-123): the `continueUntilComplete` value of each
      session it starts, when the UI ends the i-th session with `choices[i]`.
      The loop itself runs until a choice stops it; this model also stops when
      the choices run out. */
  function Sessions(flag: bool, choices: seq<string>): (runs: seq<bool>)
    ensures |runs| <= |choices|
    ensures |choices| > 0 ==> |runs| > 0 && runs[0] == flag
    ensures forall i :: 0 < i < |runs| ==> runs[i] == (choices[i - 1] == ContinueAll)
    ensures forall i :: 0 <= i < |runs| - 1 ==> NextSession(choices[i]).Restart?
    ensures 0 < |runs| < |choices| ==> NextSession(choices[|runs| - 1]) == Stop
    ensures |choices| > 0 && |runs| < |choices| ==> |runs| > 0
    decreases |choices|
  {
    if choices == [] then []
    else match NextSession(choices[0])
      case Stop => [flag]
      case Restart(f) => [flag] + Sessions(f, choices[1..])
  }

  /** How a run of the program ends. */
  datatype Launch = UsageError | Ran(host: string, sessions: seq<bool>)

  /** Lines 41-58: without a model name the program exits before any
      session; otherwise the first session runs interactively on the
      resolved host. */
  function Start(modelName: string, flagHost: string, env: string, choices: seq<string>): (l: Launch)
    ensures modelName == "" <==> l.UsageError?
    ensures l.Ran? ==> l.host != "" && l.host == ResolveHost(flagHost, env)
    ensures l.Ran? && |choices| > 0 ==> |l.sessions| > 0 && !l.sessions[0]
    ensures l.Ran? ==> l.sessions == Sessions(false, choices)
  {
    if modelName == "" then UsageError
    else Ran(ResolveHost(flagHost, env), Sessions(false, choices))
  }

  // ---------------------------------------------------------------------------
  // The UI's answer and the next session
  // ---------------------------------------------------------------------------

  /** The menu's three items map, in order, to a restart in interactive mode,
      a restart in continue mode, and the end of the program (ui/ui.go:85-89
      with lines 104-112). */
  lemma MenuDecidesNextSession(model: string, host: string)
    ensures var items := Ui.NewModel(model, host).list.items;
      && |items| == 3
      && NextSession(items[0]) == Restart(false)
      && NextSession(items[1]) == Restart(true)
      && NextSession(items[2]) == Stop
  {
  }

  // ---------------------------------------------------------------------------
  // The UI's last send on userChoiceCh
  // ---------------------------------------------------------------------------

  /** How a UI step plays out once the send on `userChoiceCh` is taken into
      account: the UI keeps running, the program stops with a choice, or it
      is stuck on the send. */
  datatype Ending = Running | Hangs | Ends(choice: string)

  /** The UI as written (ui/ui.go:133, 143, 173): the send on the unbuffered
      `userChoiceCh` (line 69) blocks until the client goroutine receives it,
      which never happens once that goroutine has returned. */
  function EndingAsWritten(r: Ui.UpdateResult, clientReturned: bool): (e: Ending)
    ensures e.Running? <==> r.cmd != Ui.QuitCmd
    ensures e.Hangs? <==> r.cmd == Ui.QuitCmd && r.sent.Some? && clientReturned
    ensures e.Ends? ==> e.choice == r.model.selectedChoice
  {
    if r.cmd != Ui.QuitCmd then Running
    else if r.sent.Some? && clientReturned then Hangs
    else Ends(r.model.selectedChoice)
  }

  /** The UI as evidently intended: the choice is offered to a client that
      may already be gone (a send with a `default` case), so the program
      always stops when the UI asks it to. While the client is running it
      behaves exactly as written. */
  function EndingNonBlocking(r: Ui.UpdateResult): (e: Ending)
    ensures e == EndingAsWritten(r, false)
    ensures !e.Hangs?
    ensures r.cmd == Ui.QuitCmd <==> e == Ends(r.model.selectedChoice)
  {
    if r.cmd != Ui.QuitCmd then Running else Ends(r.model.selectedChoice)
  }

  /** As written, every session that ends with an ErrorMsg leaves the
      program stuck: the client has returned right after sending it
      (client/client.go:193-194, 208-209), and the UI then blocks on sending
      "Quit" (ui/ui.go:169-174) with nobody left to receive. */
  lemma ErrorHangsProgram(model: string, flag: bool, its: seq<Iteration>, m: Ui.UiModel, navigate: Ui.Navigate)
    requires ErrorExit(Loop(PullRequest(model, true), flag, false, its).exit)
    ensures var s := Loop(PullRequest(model, true), flag, false, its);
      && |s.events| > 0 && Last(s.events).ErrorMsg?
      && EndingAsWritten(Ui.Update(m, Ui.FromClient(Last(s.events)), navigate), s.exit.Some?) == Hangs
  {
  }

  /** A concrete case: HTTP 500 with an empty body, the first session of a
      run. The client reports one ErrorMsg and closes its channel; the UI
      then blocks on its send. */
  lemma ServerErrorHangsProgram(model: string, host: string, navigate: Ui.Navigate)
    ensures var its := [Iteration(Idle, Responded(500, "", [], CleanEof), DecisionCancelled)];
      var s := Loop(PullRequest(model, true), false, false, its);
      && s.exit == Some(Failed)
      && s.events == [ErrorMsg(StatusErrorText(500, ""))]
      && EndingAsWritten(Ui.Update(Ui.NewModel(model, host), Ui.FromClient(s.events[0]), navigate), true) == Hangs
  {
    var its := [Iteration(Idle, Responded(500, "", [], CleanEof), DecisionCancelled)];
    assert !Contains("", UserQuitText);
    ClientProperties.BadStatusIsFatal(PullRequest(model, true), false, false, 500, "", [], CleanEof, DecisionCancelled, []);
    assert its == its + [];
  }

  /** With the send made non-blocking, an ErrorMsg from the client makes the
      UI stop with the choice "Quit", and no session follows
      (ui/ui.go:169-174, lines 110-112). */
  lemma ErrorEndsProgram(m: Ui.UiModel, err: string, navigate: Ui.Navigate, flag: bool, later: seq<string>)
    ensures var r := Ui.Update(m, Ui.FromClient(ErrorMsg(err)), navigate);
      && r.sent == Some(QuitChoice)
      && EndingNonBlocking(r) == Ends(QuitChoice)
      && NextSession(r.model.selectedChoice) == Stop
      && Sessions(flag, [r.model.selectedChoice] + later) == [flag]
  {
  }

  /** The list's own quit key ends the UI without a send, so it never
      blocks; the empty choice held until then ends the program (ui/ui.go:147-151,
      lines 113-120). */
  lemma ListQuitEndsProgram(m: Ui.UiModel, key: string, navigate: Ui.Navigate, clientReturned: bool,
                            flag: bool, later: seq<string>)
    requires m.showList && key != "q" && key != "ctrl+c" && key != "enter"
    requires navigate(m.list, key).quits && m.selectedChoice == ""
    ensures var r := Ui.Update(m, Ui.Key(key), navigate);
      && EndingAsWritten(r, clientReturned) == Ends("")
      && Sessions(flag, [r.model.selectedChoice] + later) == [flag]
  {
    Ui.ListQuitSendsNothing(m, key, navigate);
  }

  /** A session whose client only reported progress leaves the UI with the
      empty choice it started with, and the empty choice ends the program:
      a completed download is the last session (ui/ui.go:84-110, 153-163,
      lines 113-120). */
  lemma CompletedDownloadEndsProgram(model: string, host: string, msgs: seq<Msg>, navigate: Ui.Navigate,
                                     flag: bool, later: seq<string>)
    requires Ui.OnlyProgress(msgs)
    ensures var final := Ui.Feed(Ui.NewModel(model, host), msgs, navigate);
      && final.selectedChoice == ""
      && NextSession(final.selectedChoice) == Stop
      && Sessions(flag, [final.selectedChoice] + later) == [flag]
  {
    Ui.ProgressRun(Ui.NewModel(model, host), msgs, navigate);
  }
}

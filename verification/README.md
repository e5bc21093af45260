# ollama-downloader-v2 in Dafny

A model of the Ollama model downloader: a terminal program that asks an
Ollama server to pull a model (`POST /api/pull`), streams the JSON progress
records to a bubbletea UI, and, when a request times out, lets the user retry
once, retry until the download completes, or quit.

The model has three parts, each a set of pure functions over explicit inputs:

- **The pull/retry controller** (`client/client.go`, `PullModel`). The
  goroutine, its channels and its `select`s become a finite trace. Each pass
  of `retryLoop` is an `Iteration`. It holds what the top-of-loop `select`
  saw, the outcome of the one HTTP attempt, and the user's answer should a
  `TimeoutMsg` be surfaced. An attempt either fails to build, fails in
  transport, or gets a response. A response has a status, a body, and, for
  200, a sequence of stream steps: a line read, a choice sent, or
  cancellation. These steps end in a clean EOF or a read error. Errors keep
  the parts of Go's error values the classification looks at:
  - the text, so the `strings.Contains(err.Error(), "user quit")` test
    applies to any error;
  - whether `errors.Is` finds `context.Canceled` or `context.DeadlineExceeded`;
  - whether the value is a `net.Error` that reports a timeout.

  `Loop` runs the trace. `PullModel` adds the single deferred close of
  `progressCh`.
- **The UI model** (`ui/ui.go`). This part covers the initial model, the
  record and integer updates of `Model.Update`, and the unit selection loop of
  `formatBytes`. The last is written as an imperative Dafny method over
  `int64` with its loop invariants.
- **The session decisions of `main.go`.** These are the host fallback, the
  exit before any session when no model name is given, and the outer loop's
  reading of the UI's final choice.

Modules: `GoBase` (int64, `%d` formatting, `strings.HasPrefix`/`Contains`),
`Client` (the controller), `ClientProperties` (its properties and reference
definitions), `ClientScenarios` (concrete sessions taken from the
repository's tests), `Ui`, and `App`.

**Code and tests disagree on 200 responses without "success".** In
interactive mode, a stream that ends cleanly without a "success" record makes
the code send `ErrorMsg("download stream ended unexpectedly")` and return
(client/client.go:203-209). Five tests expect a `TimeoutMsg` from such a
server instead:
- `TestPullModel_EmptyResponse` (client/client_test.go:640-672) answers with
  an empty body.
- `TestPullModel_Timeout` (95-130), `TestPullModel_UserChoiceContinue`
  (245-312), `TestPullModel_UserChoiceContinueUntilComplete` (314-381) and
  `TestPullModel_UserChoiceQuit` (383-419) wait 50 ms and then answer 200
  with one `{}` line.

The only deadline in the code is the 30-second request context
(client/client.go:84), so neither reply is a timeout. The `{}` line is
forwarded as `ProgressMsg("", 0, 0)`, and then the stream ends without
"success". The model follows the code:
`ClientScenarios.EmptyResponseEmitsError` and
`ClientScenarios.EmptyRecordEndsWithError` state what the code does with
these replies. `ClientScenarios.ScenarioRetryOnceThenSuccess` and
`ClientScenarios.ScenarioContinueUntilComplete` state what the code does
when an attempt really hits the deadline (client/client.go:174-182). That is
the behaviour the retry tests intend, though their servers never trigger it.

Quirks the model keeps because the code has them:
- `downloadFinished` outlives its attempt (client/client.go:63).
- A "success" record does not end the stream (lines 130-132).
- A non-200 body that contains "user quit" ends the session silently (line 157).
- A read error caused by a network timeout is fatal, not retried. It is
  wrapped by `fmt.Errorf`, so the `net.Error` assertion of line 163 fails on
  it. Only the context deadline (`errors.Is`) makes a read error retryable.

## Model

| member | source | states |
|---|---|---|
| `GoBase.FormatInt` | client/client.go:101 | the `%d` text of an integer: a leading '-' exactly for a negative one, then the decimal digits of its magnitude |
| `GoBase.ContainsIffOccurs` | client/client.go:157 | `strings.Contains` holds exactly when the substring occurs at some position |
| `Client.Classify` | client/client.go:155-195 | an error is quit-quietly exactly when it is a cancellation or its text contains "user quit"; otherwise it is retryable exactly when it is a deadline or a net timeout; else fatal with the error's text |
| `Client.TransportError` | client/client.go:93-96 | the error of `client.Do` keeps the transport's text, and a deadline also reports a net timeout; it is quit-quietly exactly for a cancellation or a "user quit" text, and retryable exactly for a deadline or net timeout without that text |
| `Client.ReadError` | client/client.go:149-151 | the wrapped read error starts "error reading response stream: " and never reports a net timeout; only a context deadline makes it retryable |
| `Client.BuildError` | client/client.go:87-90 | the build error starts "error creating request: " and is never retried; it is quiet exactly when its text contains "user quit" |
| `Client.StatusErrorText` | client/client.go:99-102 | the non-200 text starts "ollama API returned status " and ends with the response body |
| `Client.StatusError` | client/client.go:99-102 | the non-200 error carries that text and is never retried; it is quiet exactly when the text contains "user quit" |
| `Client.ToProgress` | client/client.go:133-137 | a decoded record becomes a ProgressMsg with the same Status, Completed and Total |
| `Client.Drain` | client/client.go:118-151 | the processing loop forwards only ProgressMsgs, at most one per step; `downloadFinished` ends true exactly when it was already true or a forwarded message has status "success"; the error returned is the quit error, the cancellation, or the wrapped read error, and none only on a clean end |
| `Client.RunAttempt` | client/client.go:83-153 | a build failure, a transport failure or a non-200 status forwards nothing and returns an error; every forwarded message is a ProgressMsg and the finished flag keeps its meaning |
| `Client.Step` | client/client.go:66-210 | one pass sends only ProgressMsgs, with possibly one terminal message last; an ErrorMsg is last exactly when the pass exits with an error; a TimeoutMsg only in interactive mode; the flag never falls and rises only on "Continue (until download completed)" after a TimeoutMsg; no attempt means no message and a return |
| `Client.AttemptStep` | client/client.go:83-210 | the same guarantees for the attempt and for what the loop does with its outcome, a build failure always ends the session, and an error classified quit-quietly ends it with the attempt's forwarded messages only; the effect of the answer after a TimeoutMsg is `ClientProperties.AfterTimeoutAnyAttempt` |
| `Client.Loop` | client/client.go:65-211 | one request posted per attempt that reaches `client.Do` (none for a request that cannot be built), always the same `{model, stream: true}` body; the flag never falls; the session exits with an error exactly when its last message is an ErrorMsg |
| `Client.PullModel` | client/client.go:44-58 | every channel operation except the last is a send, and the last is the close exactly when the goroutine has returned; the sends are the session's messages, in order, and nothing else |
| `ClientProperties.BeforeInterrupt` | client/client.go:138-146 | the reference prefix of stream steps before the first cancellation or "Quit": no interruption inside it, and one right after it when it is shorter than the stream |
| `ClientProperties.Progresses` | client/client.go:133-137 | the reference list: one ProgressMsg per record, same fields, same order |
| `ClientProperties.DrainMatchesReference` | client/client.go:118-151 | the processing loop forwards exactly the records read before any interruption, in order, and returns exactly the reference error |
| `ClientProperties.IgnoredStepsChangeNothing` | client/client.go:125-129 | undecodable lines and non-"Quit" choices can be removed from a stream without changing what the attempt sends, returns or sets |
| `ClientProperties.LoopStops` | client/client.go:65-211 | when a pass returns, the session is that pass's messages, flag and exit, and the rest of the trace is never run |
| `ClientProperties.LoopGoesRound` | client/client.go:65-211 | when a pass does not return, the session is that pass's messages and request followed by the rest of the trace run with the updated flags |
| `ClientProperties.ErrorOnlyAtEnd` | client/client.go:191-195 | an ErrorMsg appears at most once in a session, only as its last message, and only once the goroutine has returned |
| `ClientProperties.StepHidesTimeout` | client/client.go:167-172 | one pass in continue mode never sends a TimeoutMsg |
| `ClientProperties.NoTimeoutInContinueMode` | client/client.go:167-172 | in continue mode no TimeoutMsg is ever sent, whatever the trace |
| `ClientProperties.FlagRaisedOnlyAfterTimeout` | client/client.go:178-181 | `continueUntilComplete` never goes back to false, and becomes true only in a session that surfaced a TimeoutMsg |
| `ClientProperties.StepTimesOut` | client/client.go:174-182 | a pass whose attempt hits the deadline and whose answer is "Continue (until next error)" sends one TimeoutMsg and goes round with the flags unchanged |
| `ClientProperties.OneTimeoutPerAttempt` | client/client.go:174-182 | when every attempt times out and every answer is "Continue (until next error)", the session is exactly one TimeoutMsg per attempt |
| `ClientProperties.CancelOrQuitBeforeAttempt` | client/client.go:68-76 | cancellation or "Quit" waiting at the top of the loop returns before any request, with no message |
| `ClientProperties.OtherTopChoiceDiscarded` | client/client.go:72-79 | any other choice waiting at the top of the loop is consumed and has no effect |
| `ClientProperties.BuildFailureIsFatal` | client/client.go:87-90 | a request that cannot be built, for a reason that does not contain "user quit", is reported in one ErrorMsg, "error creating request: <reason>", and the session ends with no request posted and no retry |
| `ClientProperties.BadStatusIsFatal` | client/client.go:99-102 | a status other than 200, with a body that does not say "user quit", is reported in one ErrorMsg whose text starts with "ollama API returned status <code>", and the session ends after that one request |
| `ClientProperties.QuitAfterU` | client/client.go:157 | a 'u' put in front of a text creates or hides no "user quit" unless the text goes on with "se" |
| `ClientProperties.StatusTextKeepsQuit` | client/client.go:101 | the status message contains "user quit" exactly when the body does |
| `ClientProperties.ReadErrorKeepsQuit` | client/client.go:150 | the wrapped read error contains "user quit" exactly when the underlying error does |
| `ClientProperties.UserQuitTextEndsSilently` | client/client.go:157-160 | a non-200 response whose body contains "user quit" ends the session with no message at all |
| `ClientProperties.TransportFailureIsFatal` | client/client.go:93-96 | a transport error that is not a timeout, a cancellation or a "user quit" text is reported in one ErrorMsg, with no retry |
| `ClientProperties.TimeoutRetriedSilently` | client/client.go:167-172 | in continue mode a timed-out request is retried with no message |
| `ClientProperties.AfterTimeoutAnyAttempt` | client/client.go:174-190 | for every kind of attempt, once a TimeoutMsg is surfaced, "Continue (until next error)" goes round in the same mode, "Continue (until download completed)" goes round in continue mode, and any other answer or cancellation ends the session |
| `ClientProperties.TimeoutAsksUser` | client/client.go:174-190 | in interactive mode a timeout before any response sends one TimeoutMsg; "Continue (until next error)" retries in the same mode, "Continue (until download completed)" retries in continue mode, and any other answer or cancellation ends the session with nothing more |
| `ClientProperties.InterruptedStreamEndsSilently` | client/client.go:138-146 | cancellation or "Quit" during the stream ends the session after the records already forwarded, with no TimeoutMsg or ErrorMsg |
| `ClientProperties.CancelledRequestEndsSilently` | client/client.go:93-96 | a cancellation while the request waits for a response ends the session with no message, one request posted and flags unchanged |
| `ClientProperties.CancelledReadEndsSilently` | client/client.go:149-151 | a cancellation reported by the body reader ends the session after the records already forwarded, with no TimeoutMsg or ErrorMsg |
| `ClientProperties.CleanEndAfterSuccessFinishes` | client/client.go:198-201 | a clean end once any "success" record has been seen, in this attempt or an earlier one, ends the session with no further attempt |
| `ClientProperties.CleanEndWithoutSuccess` | client/client.go:203-210 | a clean end without success is retried silently in continue mode and reported as "download stream ended unexpectedly" otherwise |
| `ClientProperties.ReadNetTimeoutIsFatal` | client/client.go:149-165 | a read error from a network timeout is fatal, because the wrapped error is not a `net.Error` |
| `ClientProperties.ReadDeadlineRetriedSilently` | client/client.go:162-172 | the context deadline hit mid-stream is a timeout: in continue mode the loop goes round with no message, keeping what was forwarded and whether it saw "success" |
| `ClientProperties.ReadDeadlineAsksUser` | client/client.go:149-151 | in interactive mode the context deadline hit mid-stream forwards the records read so far, then one TimeoutMsg; the answer then retries in the same mode, retries in continue mode, or ends the session, keeping whether "success" was seen |
| `ClientProperties.ErrorIsLastBeforeClose` | client/client.go:45-47 | the channel is closed at most once, as the last operation, and an ErrorMsg is always the send just before the close |
| `ClientScenarios.ReturnedSessionCloses` | client/client.go:44-47 | a session that has returned shows on the channel as exactly its messages, sent in order, then the close |
| `ClientScenarios.RecordsOnlyForwardAll` | client/client.go:121-137 | a stream of decoded records forwards all of them, in order |
| `ClientScenarios.ScenarioStreamToSuccess` | client/client_test.go:23-93 | records at 10, 50 and 90 of 100 and then "success" give four ProgressMsgs with those figures, then the close |
| `ClientScenarios.ScenarioRetryOnceThenSuccess` | client/client.go:174-182 | a timeout answered "Continue (until next error)" and then a successful attempt give one TimeoutMsg, the success ProgressMsg and the close, over two requests |
| `ClientScenarios.Status500Prefix` | client/client.go:101 | the message for status 500 starts "ollama API returned status 500" |
| `ClientScenarios.ScenarioServerError` | client/client_test.go:131-156 | HTTP 500 gives exactly one ErrorMsg starting "ollama API returned status 500", then the close, and the rest of the trace is never reached; a body saying "user quit" gives the close alone |
| `ClientScenarios.ScenarioContinueUntilComplete` | client/client.go:174-182 | after "Continue (until download completed)", two further timeouts pass silently and the download finishes: one TimeoutMsg in all, four requests |
| `ClientScenarios.EmptyResponseEmitsError` | client/client.go:207-209 | an empty 200 body in interactive mode gives `ErrorMsg("download stream ended unexpectedly")` and the close, not a TimeoutMsg |
| `ClientScenarios.EmptyRecordEndsWithError` | client/client.go:203-209 | a 200 reply of one `{}` line in interactive mode gives `ProgressMsg("", 0, 0)`, then `ErrorMsg("download stream ended unexpectedly")` and the close, not a TimeoutMsg |
| `ClientScenarios.InvalidLineSkipped` | client/client_test.go:421-455 | a line that is not JSON is skipped and the success record after it is still forwarded |
| `ClientScenarios.FinishedSurvivesRetry` | client/client.go:63 | a success record followed by a mid-stream deadline, then a retry whose stream is empty, finishes without an ErrorMsg, because `downloadFinished` outlives its attempt |
| `Ui.SelectedItem` | ui/ui.go:136-140 | an item is selected exactly when the cursor is within the items, and it is one of them |
| `Ui.NewModel` | ui/ui.go:84-110 | the menu holds "Continue (until next error)", "Continue (until download completed)" and "Quit" in that order; the list is hidden, no choice is made, the byte counters are zero |
| `Ui.ProgressWidth` | ui/ui.go:120-123 | the progress width is at most 80, and equals Width − 2·padding − 4 whenever that is at most 80 |
| `Ui.Update` | ui/ui.go:117-202 | a choice is sent exactly when `quitUICh` is closed, and then the command is `tea.Quit`; the only other `tea.Quit` is the list's own, for a key passed to the shown list; the choice sent is the one the model keeps; only a key or an ErrorMsg can end the UI; the model name, host and menu items never change, nor does the choice unless the UI ends |
| `Ui.ResizeSetsWidths` | ui/ui.go:119-125 | a resize sets the progress width to Width − 8 clamped to 80, the list width to Width, and changes nothing else |
| `Ui.ProgressOverwrites` | ui/ui.go:153-163 | a ProgressMsg always sets the status and the completed count, sets the total only when it is positive, and changes nothing else |
| `Ui.TimeoutShowsList` | ui/ui.go:165-167 | a TimeoutMsg shows the list and changes nothing else |
| `Ui.QuitKeysChooseQuit` | ui/ui.go:129-134 | "q" and "ctrl+c" set `quitting`, choose and send "Quit", close `quitUICh` and quit |
| `Ui.ErrorChoosesQuit` | ui/ui.go:169-174 | an ErrorMsg sets the status to "Error: <text>" and chooses and sends "Quit", leaving `quitting` as it was |
| `Ui.EnterSendsSelection` | ui/ui.go:136-151 | "enter" with the list shown sends the selected item, or the current choice when nothing is selected; with the list hidden it does nothing |
| `Ui.ListQuitSendsNothing` | ui/ui.go:147-151 | a key the shown list turns into `tea.Quit` ends the UI without sending a choice or closing `quitUICh`, and the choice stays as it was |
| `Ui.MenuMatchesClient` | ui/ui.go:85-89 | after a timeout, the first menu item makes the client retry in the same mode, the second retries in continue mode, and the third ends the session |
| `Ui.ProgressRun` | ui/ui.go:153-163 | after a run of ProgressMsgs the total is the last positive Total seen (the reference `LastPositiveTotal`), the status and completed count are the last message's, and the choice and list are unchanged |
| `Ui.RenderRaw` | ui/ui.go:207-209 | the `%d B` text: the count in decimal, with a minus sign when negative, then " B"; the digits read back as the count |
| `Ui.FormatBytes` | ui/ui.go:205-216 | counts below 1024, negative ones included, are shown unscaled as `RenderRaw` prints them; otherwise the divisor is 1024^(exp+1) with 1 ≤ b/div < 1024, exp ≤ 5 for every int64 so the unit letter is "KMGTPE"[exp], and no multiplication overflows |
| `App.ResolveHost` | main.go:48-53 | the host is the -host flag if set, else `OLLAMA_HOST` if set, else "http://localhost:11434"; it is never empty |
| `App.NextSession` | main.go:103-121 | "Continue (until next error)" restarts with the flag false, "Continue (until download completed)" with the flag true, and every other choice stops |
| `App.Sessions` | main.go:55-123 | the first session runs with the initial flag; each later one runs with the flag the previous choice named, and only "Continue" choices come before it; the loop stops at the first other choice |
| `App.Start` | main.go:41-46 | with no model name the program exits before any session; otherwise the sessions run on the resolved host, the first in interactive mode, and they are exactly the runs `Sessions` gives for the final choices |
| `App.MenuDecidesNextSession` | main.go:104-112 | the three menu items lead, in order, to a restart in interactive mode, a restart in continue mode, and the end of the program |
| `App.EndingAsWritten` | ui/ui.go:129-174 | as written, a UI step that sends a choice while the client goroutine has returned hangs; a `tea.Quit` ends the program with the recorded choice otherwise |
| `App.EndingNonBlocking` | ui/ui.go:129-174 | with the send made non-blocking the UI never hangs, and it behaves as written whenever the client is still running |
| `App.ErrorHangsProgram` | ui/ui.go:169-174 | as written, every session that ends with an ErrorMsg leaves the UI blocked on sending "Quit", because the client goroutine has already returned |
| `App.ServerErrorHangsProgram` | ui/ui.go:173 | HTTP 500 on the first attempt: the client sends one ErrorMsg and returns, and the UI then blocks on its send |
| `App.ErrorEndsProgram` | ui/ui.go:169-174 | with the non-blocking send, a client ErrorMsg makes the UI record "Quit" and stop, and no session follows |
| `App.ListQuitEndsProgram` | ui/ui.go:147-151 | a quit from the list itself sends nothing, so it never blocks; the empty choice ends the program |
| `App.CompletedDownloadEndsProgram` | main.go:113-120 | after a session that only reported progress, the UI's choice is still empty, and the empty choice ends the program |

## Left out

- HTTP and JSON: the request building, `client.Do`, status reading and line
  decoding are the `Attempt` and `Line` inputs. The marshal-error branch
  (client/client.go:54-58) cannot fire for this request type and is not modelled.
- Goroutines, channels and `select`: which case fires is part of the trace.
  Races are not modelled. These include the reader goroutine left blocked
  after an early return, and main.go:98 cancelling a client the UI has already
  answered.
- Timing: the 30-second request timeout, the one-second sleeps and the UI
  tick schedule. Timeouts appear only as error kinds.
- Logging and the log file.
- Client.Loop: the real loop can run for ever. The model stops when the
  trace is exhausted, and reports that as a session with no exit and no close.
- App.Sessions: likewise stops when the list of final choices runs out.
- Status codes are unbounded integers, not Go's `int`; only their `%d`
  rendering matters.
- Ui.Update: rendering (`View`), the progress bar's animation frames, and the
  float `percent` and `speed` are not modelled. The list component's key
  handling is a caller-supplied function. It returns the new list state and
  whether its command is `tea.Quit`, which the bubbles list returns for "esc"
  when filtering is off (ui/ui.go:94). The menu items are kept fixed.
- App.ErrorEndsProgram: states what happens with the send on `userChoiceCh`
  made non-blocking. As written the program hangs after every ErrorMsg (see
  Findings). The other blocking sends, for "q" and "enter" (ui/ui.go:133,
  143), reach a waiting client except in races, which are not modelled.
- Ui.FormatBytes: the `%.1f %cB` rendering of the scaled case is not modelled
  (float formatting). The method returns the divisor, exponent and unit letter
  it selects.
- App.Start: flag parsing, the usage text and `os.Exit` are not modelled. The
  flag values and `OLLAMA_HOST` are parameters, and the error path of
  `p.Run()` (main.go:87-96) is not modelled.

## Findings

| source | as written | input that shows it | evidently intended | confidence | as-written member | corrected member |
|---|---|---|---|---|---|---|
| ui/ui.go:169-174 | on an ErrorMsg the UI sends "Quit" on the unbuffered `userChoiceCh` (main.go:69). Its only reader is the client goroutine, which returned right after sending the ErrorMsg (client/client.go:193-194, 208-209). `Update` never returns and the program hangs. The UI tests use buffered channels (ui/ui_test.go:17-18), which hides this | HTTP 500 with an empty body on the first attempt | the UI quits with "Quit" and main stops the program | high; not executed | `App.ErrorHangsProgram` | `App.ErrorEndsProgram` |

/** The pull/retry controller of client/client.go (`PullModel`).

    The goroutine, the channels and the `select` statements are replaced by an
    explicit trace: one `Iteration` value per pass of `retryLoop`, saying which
    `select` case fired at the top of the loop, how the single HTTP attempt went,
    and what the user answered if a `TimeoutMsg` was surfaced. The controller is
    then a pure function of the initial `continueUntilComplete` flag and the trace. */
module Client {
  import opened GoBase

  // ---------------------------------------------------------------------------
  // Data exchanged with the server and with the UI
  // ---------------------------------------------------------------------------

  /** The JSON body posted to `/api/pull`. */
  datatype PullRequest = PullRequest(model: string, stream: bool)

  /** One decoded line of the newline-delimited JSON stream. */
  datatype OllamaResponse = OllamaResponse(status: string, digest: string, total: int64, completed: int64)

  /** The messages `PullModel` writes to `progressCh`. */
  datatype Msg =
    | ProgressMsg(status: string, completed: int64, total: int64)
    | TimeoutMsg
    | ErrorMsg(err: string)

  /** What happens to `progressCh`: a message is sent, or the channel is closed. */
  datatype ChannelOp = Send(msg: Msg) | Close

  /** The strings the UI may put on `userChoiceCh`. */
  const QuitChoice: string := "Quit"
  const ContinueOnce: string := "Continue (until next error)"
  const ContinueAll: string := "Continue (until download completed)"

  /** The status of the record that marks a finished download. */
  const SuccessStatus: string := "success"

  /** The text PullModel's quit error carries, and the text it is recognised by. */
  const UserQuitText: string := "user quit"

  const UnexpectedEndText: string := "download stream ended unexpectedly"

  // ---------------------------------------------------------------------------
  // Errors, as far as the retry loop inspects them
  // ---------------------------------------------------------------------------

  /** A Go `error` value reduced to what lines 157-165 look at: its text
      (`err.Error()`), whether `errors.Is` finds `context.Canceled` or
      `context.DeadlineExceeded` in its chain, and whether the value itself is a
      `net.Error` whose `Timeout()` is true. */
  datatype GoError = GoError(text: string, canceled: bool, deadline: bool, netTimeout: bool)

  /** What an I/O failure is caused by. */
  datatype IoKind =
    | IoCanceled     // the main context was cancelled
    | IoDeadline     // the attempt's 30 s context deadline was hit
    | IoNetTimeout   // a network-level timeout other than the context deadline
    | IoOther        // anything else (refused connection, reset, ...)

  /** An error returned by `client.Do` or by the line scanner. */
  datatype IoError = IoError(text: string, kind: IoKind)

  /** How the retry loop classifies a failed attempt. */
  datatype Verdict = QuitQuietly | Retryable | Fatal(text: string)

  /** Lines 157-166: cancellation or a "user quit" text first, then timeouts;
      everything else is fatal. */
  function Classify(e: GoError): (v: Verdict)
    ensures v.QuitQuietly? <==> e.canceled || Contains(e.text, UserQuitText)
    ensures v.Retryable? <==> !v.QuitQuietly? && (e.deadline || e.netTimeout)
    ensures v.Fatal? ==> v.text == e.text
  {
    if e.canceled || Contains(e.text, UserQuitText) then QuitQuietly
    else if e.deadline || e.netTimeout then Retryable
    else Fatal(e.text)
  }

  /** The error `client.Do` returns: a `*url.Error`, which is a `net.Error`
      reporting a timeout for both kinds of deadline. */
  function TransportError(io: IoError): (e: GoError)
    ensures e.text == io.text
    ensures e.deadline ==> e.netTimeout
    ensures Classify(e).QuitQuietly? <==> io.kind == IoCanceled || Contains(io.text, UserQuitText)
    ensures Classify(e).Retryable? <==> (io.kind == IoDeadline || io.kind == IoNetTimeout) && !Contains(io.text, UserQuitText)
  {
    GoError(io.text, io.kind == IoCanceled, io.kind == IoDeadline,
            io.kind == IoDeadline || io.kind == IoNetTimeout)
  }

  /** The error of line 150: `fmt.Errorf` with `%w` keeps the chain for
      `errors.Is` but hides the `net.Error` type from the assertion of line 163. */
  function ReadError(io: IoError): (e: GoError)
    ensures HasPrefix(e.text, "error reading response stream: ")
    ensures !e.netTimeout
    ensures Classify(e).QuitQuietly? <==> io.kind == IoCanceled || Contains(e.text, UserQuitText)
    ensures Classify(e).Retryable? <==> io.kind == IoDeadline && !Contains(e.text, UserQuitText)
  {
    GoError("error reading response stream: " + io.text, io.kind == IoCanceled, io.kind == IoDeadline, false)
  }

  /** Line 89. */
  function BuildError(reason: string): (e: GoError)
    ensures HasPrefix(e.text, "error creating request: ")
    ensures !Classify(e).Retryable?
    ensures Classify(e).QuitQuietly? <==> Contains(e.text, UserQuitText)
  {
    GoError("error creating request: " + reason, false, false, false)
  }

  /** The text of line 101. */
  function StatusErrorText(code: int, body: string): (text: string)
    ensures HasPrefix(text, "ollama API returned status ")
    ensures |body| <= |text| && text[|text| - |body|..] == body
  {
    "ollama API returned status " + FormatInt(code) + ": " + body
  }

  /** Line 101. */
  function StatusError(code: int, body: string): (e: GoError)
    ensures e.text == StatusErrorText(code, body)
    ensures !Classify(e).Retryable?
    ensures Classify(e).QuitQuietly? <==> Contains(e.text, UserQuitText)
  {
    GoError(StatusErrorText(code, body), false, false, false)
  }

  /** Line 141. */
  const QuitError: GoError := GoError(UserQuitText, false, false, false)

  /** Line 145: `ctx.Err()` of the cancelled main context is `context.Canceled`. */
  const CanceledError: GoError := GoError("context canceled", true, false, false)

  // ---------------------------------------------------------------------------
  // One attempt (the anonymous function of lines 83-153)
  // ---------------------------------------------------------------------------

  /** A line handed over by the reader goroutine: JSON that `json.Unmarshal`
      rejects, or a decoded record. */
  datatype Line = Malformed(raw: string) | Decoded(resp: OllamaResponse)

  /** Which case of the `select` of lines 120-146 fired. */
  datatype StreamStep =
    | LineRead(line: Line)        // a line arrived on linesCh
    | ChoiceSent(choice: string)  // the UI sent a choice on userChoiceCh
    | ContextDone                 // the main context was cancelled

  /** How the reader goroutine finished once linesCh closed: what `scanner.Err()` returned. */
  datatype StreamEnd = CleanEof | ReadFailed(err: IoError)

  /** How one attempt went. For `Responded`, `body` is what `io.ReadAll` returns
      when the status is not 200, and `steps`/`end` describe the streamed body when
      it is 200; the other half is ignored. */
  datatype Attempt =
    | BuildFailed(reason: string)
    | TransportFailed(err: IoError)
    | Responded(code: int, body: string, steps: seq<StreamStep>, end: StreamEnd)

  /** What an attempt sent on progressCh, the error it returned (None for nil),
      and the `downloadFinished` flag after it. */
  datatype AttemptOutcome = AttemptOutcome(sent: seq<Msg>, err: Option<GoError>, finished: bool)

  /** Line 133: the message forwarded for a decoded record. */
  function ToProgress(r: OllamaResponse): (m: Msg)
    ensures m.ProgressMsg? && m.status == r.status && m.completed == r.completed && m.total == r.total
  {
    ProgressMsg(r.status, r.completed, r.total)
  }

  /** Some forwarded message reports the success status. */
  predicate SawSuccess(sent: seq<Msg>) {
    exists i :: 0 <= i < |sent| && sent[i].ProgressMsg? && sent[i].status == SuccessStatus
  }

  predicate AllProgress(sent: seq<Msg>) {
    forall i :: 0 <= i < |sent| ==> sent[i].ProgressMsg?
  }

  /** The processing loop (lines 118-151). Malformed lines and non-"Quit"
      choices are skipped; a "success" record only sets `downloadFinished`, the
      stream keeps being drained. */
  function Drain(steps: seq<StreamStep>, end: StreamEnd, finished: bool): (o: AttemptOutcome)
    ensures AllProgress(o.sent)
    ensures |o.sent| <= |steps|
    ensures o.finished <==> finished || SawSuccess(o.sent)
    ensures o.err.Some? ==> o.err == Some(QuitError) || o.err == Some(CanceledError) || (end.ReadFailed? && o.err == Some(ReadError(end.err)))
    ensures o.err.None? ==> end.CleanEof?
    decreases |steps|
  {
    if |steps| == 0 then
      match end
      case CleanEof => AttemptOutcome([], None, finished)
      case ReadFailed(io) => AttemptOutcome([], Some(ReadError(io)), finished)
    else
      match steps[0]
      case LineRead(Malformed(_)) => Drain(steps[1..], end, finished)
      case LineRead(Decoded(r)) =>
        var rest := Drain(steps[1..], end, finished || r.status == SuccessStatus);
        SawSuccessCons(ToProgress(r), rest.sent);
        AttemptOutcome([ToProgress(r)] + rest.sent, rest.err, rest.finished)
      case ChoiceSent(c) =>
        if c == QuitChoice then AttemptOutcome([], Some(QuitError), finished)
        else Drain(steps[1..], end, finished)
      case ContextDone => AttemptOutcome([], Some(CanceledError), finished)
  }

  /** A success is seen in `[m] + rest` exactly when `m` is one or `rest` holds one. */
  lemma SawSuccessCons(m: Msg, rest: seq<Msg>)
    ensures SawSuccess([m] + rest) <==> (m.ProgressMsg? && m.status == SuccessStatus) || SawSuccess(rest)
  {
    var s := [m] + rest;
    if SawSuccess(s) && !(m.ProgressMsg? && m.status == SuccessStatus) {
      var i :| 0 <= i < |s| && s[i].ProgressMsg? && s[i].status == SuccessStatus;
      assert i > 0 && rest[i - 1] == s[i];
    }
    if SawSuccess(rest) {
      var j :| 0 <= j < |rest| && rest[j].ProgressMsg? && rest[j].status == SuccessStatus;
      assert s[j + 1] == rest[j];
    }
    if m.ProgressMsg? && m.status == SuccessStatus {
      assert s[0] == m;
    }
  }

  /** Lines 83-153: build the request, send it, check the status, drain the stream. */
  function RunAttempt(a: Attempt, finished: bool): (o: AttemptOutcome)
    ensures AllProgress(o.sent)
    ensures o.finished <==> finished || SawSuccess(o.sent)
    ensures !a.Responded? || a.code != 200 ==> o.sent == [] && o.err.Some?
  {
    match a
    case BuildFailed(reason) => AttemptOutcome([], Some(BuildError(reason)), finished)
    case TransportFailed(io) => AttemptOutcome([], Some(TransportError(io)), finished)
    case Responded(code, body, steps, end) =>
      if code != 200 then AttemptOutcome([], Some(StatusError(code, body)), finished)
      else Drain(steps, end, finished)
  }

  // ---------------------------------------------------------------------------
  // The retry loop (lines 65-211)
  // ---------------------------------------------------------------------------

  /** Which case of the `select` of lines 68-79 fired. */
  datatype TopSignal = Idle | TopCancelled | TopChoice(choice: string)

  /** Which case of the `select` of lines 175-190 fired, if it is reached. */
  datatype Decision = Chose(choice: string) | DecisionCancelled

  /** Everything the environment decides during one pass of `retryLoop`. */
  datatype Iteration = Iteration(top: TopSignal, attempt: Attempt, decision: Decision)

  /** Why the goroutine returned. */
  datatype Exit =
    | CancelledBeforeAttempt  // line 71
    | QuitBeforeAttempt       // line 75
    | AbandonedAttempt        // line 159: cancelled, or quit, during the attempt
    | Declined                // lines 184-189: anything but a Continue choice after a timeout
    | Failed                  // line 194: a fatal error
    | Finished                // line 200: the download completed
    | EndedUnexpectedly       // line 209: clean end without success, interactive mode

  /** The result of one pass: the messages sent, whether an attempt was made, the
      `continueUntilComplete` and `downloadFinished` flags afterwards, and the
      exit taken (None when the loop goes round again). */
  datatype StepResult = StepResult(events: seq<Msg>, attempted: bool, flag: bool, finished: bool, exit: Option<Exit>)

  /** Only the last message of `events` may be a TimeoutMsg or an ErrorMsg. */
  predicate ProgressThenTerminal(events: seq<Msg>) {
    forall i :: 0 <= i < |events| - 1 ==> events[i].ProgressMsg?
  }

  function Last(events: seq<Msg>): (m: Msg)
    requires |events| > 0
  {
    events[|events| - 1]
  }

  /** The exits that emit an ErrorMsg just before returning. */
  predicate ErrorExit(x: Option<Exit>) {
    x == Some(Failed) || x == Some(EndedUnexpectedly)
  }

  /** One pass of `retryLoop`. */
  function Step(flag: bool, finished: bool, it: Iteration): (r: StepResult)
    ensures ProgressThenTerminal(r.events)
    ensures r.exit.None? ==> r.attempted
    ensures ErrorExit(r.exit) <==> |r.events| > 0 && Last(r.events).ErrorMsg?
    ensures |r.events| > 0 && Last(r.events).TimeoutMsg? ==> !flag && r.exit != Some(Failed)
    ensures flag ==> r.flag
    ensures r.flag != flag ==> r.exit.None? && it.decision == Chose(ContinueAll) && |r.events| > 0 && Last(r.events).TimeoutMsg?
    ensures !r.attempted ==> r.events == [] && r.exit.Some?
    ensures it.attempt.BuildFailed? ==> r.exit.Some?
  {
    match it.top
    case TopCancelled => StepResult([], false, flag, finished, Some(CancelledBeforeAttempt))
    case TopChoice(c) =>
      if c == QuitChoice then StepResult([], false, flag, finished, Some(QuitBeforeAttempt))
      else AttemptStep(flag, finished, it.attempt, it.decision)
    case Idle => AttemptStep(flag, finished, it.attempt, it.decision)
  }

  /** Lines 83-210: one attempt and what the loop does with its result. */
  function AttemptStep(flag: bool, finished: bool, a: Attempt, d: Decision): (r: StepResult)
    ensures r.attempted
    ensures a.BuildFailed? ==> r.exit.Some?
    ensures ProgressThenTerminal(r.events)
    ensures ErrorExit(r.exit) <==> |r.events| > 0 && Last(r.events).ErrorMsg?
    ensures |r.events| > 0 && Last(r.events).TimeoutMsg? ==> !flag && r.exit != Some(Failed)
    ensures flag ==> r.flag
    ensures r.flag != flag ==> r.exit.None? && d == Chose(ContinueAll) && |r.events| > 0 && Last(r.events).TimeoutMsg?
    ensures var o := RunAttempt(a, finished);
      o.err.Some? && Classify(o.err.value).QuitQuietly? ==> r == StepResult(o.sent, true, flag, o.finished, Some(AbandonedAttempt))
  {
    var o := RunAttempt(a, finished);
    var sent := o.sent;
    match o.err
    case Some(e) =>
      (match Classify(e)
       case QuitQuietly => StepResult(sent, true, flag, o.finished, Some(AbandonedAttempt))
       case Fatal(text) => StepResult(sent + [ErrorMsg(text)], true, flag, o.finished, Some(Failed))
       case Retryable =>
         if flag then StepResult(sent, true, flag, o.finished, None)
         else
           var events := sent + [TimeoutMsg];
           match d
           case Chose(c) =>
             if c == ContinueOnce then StepResult(events, true, flag, o.finished, None)
             else if c == ContinueAll then StepResult(events, true, true, o.finished, None)
             else StepResult(events, true, flag, o.finished, Some(Declined))
           case DecisionCancelled => StepResult(events, true, flag, o.finished, Some(Declined)))
    case None =>
      if o.finished then StepResult(sent, true, flag, o.finished, Some(Finished))
      else if flag then StepResult(sent, true, flag, o.finished, None)
      else StepResult(sent + [ErrorMsg(UnexpectedEndText)], true, flag, o.finished, Some(EndedUnexpectedly))
  }

  /** The state of a session after the trace has been consumed: the messages
      sent, the requests posted (one per attempt that reaches `client.Do`), the final
      `continueUntilComplete` flag, and the exit taken, or None if the trace ran
      out while the loop would still go round. */
  datatype Session = Session(events: seq<Msg>, requests: seq<PullRequest>, flag: bool, exit: Option<Exit>)

  /** Some message of `events` is a TimeoutMsg. */
  predicate SurfacedTimeout(events: seq<Msg>) {
    exists i :: 0 <= i < |events| && events[i].TimeoutMsg?
  }

  /** `retryLoop` run over the trace `its`. The real loop can run for ever; the
      model stops when the trace is exhausted. `req` is the body marshalled once,
      before the loop (lines 49-54), and posted unchanged on every attempt. */
  function Loop(req: PullRequest, flag: bool, finished: bool, its: seq<Iteration>): (s: Session)
    ensures |s.requests| <= |its|
    ensures forall i :: 0 <= i < |s.requests| ==> s.requests[i] == req
    ensures s.exit.None? ==> |s.requests| == |its|
    ensures flag ==> s.flag
    ensures ErrorExit(s.exit) <==> |s.events| > 0 && Last(s.events).ErrorMsg?
    decreases |its|
  {
    if |its| == 0 then Session([], [], flag, None)
    else
      var r := Step(flag, finished, its[0]);
      if r.exit.Some? then
        // A request that could not be built is never posted.
        var posted := if r.attempted && !its[0].attempt.BuildFailed? then [req] else [];
        Session(r.events, posted, r.flag, r.exit)
      else
        var rest := Loop(req, r.flag, r.finished, its[1..]);
        var s := Session(r.events + rest.events, [req] + rest.requests, rest.flag, rest.exit);
        assert |rest.events| > 0 ==> Last(s.events) == Last(rest.events);
        s
  }

  /** `PullModel`: the loop, then the single deferred `close(progressCh)` of
      line 47, which runs whenever the goroutine returns. */
  function PullModel(model: string, continueUntilComplete: bool, its: seq<Iteration>): (ops: seq<ChannelOp>)
    ensures forall i :: 0 <= i < |ops| - 1 ==> ops[i].Send?
    ensures |ops| > 0 && ops[|ops| - 1].Close? <==> Loop(PullRequest(model, true), continueUntilComplete, false, its).exit.Some?
    ensures var s := Loop(PullRequest(model, true), continueUntilComplete, false, its);
      |ops| == |s.events| + (if s.exit.Some? then 1 else 0)
    ensures var s := Loop(PullRequest(model, true), continueUntilComplete, false, its);
      forall i :: 0 <= i < |s.events| ==> ops[i] == Send(s.events[i])
  {
    var s := Loop(PullRequest(model, true), continueUntilComplete, false, its);
    var sends := seq(|s.events|, i requires 0 <= i < |s.events| => Send(s.events[i]));
    if s.exit.Some? then sends + [Close] else sends
  }
}

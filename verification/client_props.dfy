/** Properties of the retry controller of client/client.go, stated over the
    model in module Client. */
module ClientProperties {
  import opened GoBase
  import opened Client

  // ---------------------------------------------------------------------------
  // Reference definitions for what one streamed attempt forwards
  // ---------------------------------------------------------------------------

  /** A `select` outcome that ends the processing loop early: cancellation or "Quit". */
  predicate Interrupts(st: StreamStep) {
    st.ContextDone? || (st.ChoiceSent? && st.choice == QuitChoice)
  }

  /** The steps the processing loop gets through before an interruption, if any. */
  function BeforeInterrupt(steps: seq<StreamStep>): (p: seq<StreamStep>)
    ensures |p| <= |steps| && p == steps[..|p|]
    ensures forall i :: 0 <= i < |p| ==> !Interrupts(p[i])
    ensures |p| < |steps| ==> Interrupts(steps[|p|])
    decreases |steps|
  {
    if |steps| == 0 || Interrupts(steps[0]) then []
    else [steps[0]] + BeforeInterrupt(steps[1..])
  }

  /** The records among `steps`, in order. */
  function Records(steps: seq<StreamStep>): (rs: seq<OllamaResponse>)
    decreases |steps|
  {
    if |steps| == 0 then []
    else if steps[0].LineRead? && steps[0].line.Decoded? then [steps[0].line.resp] + Records(steps[1..])
    else Records(steps[1..])
  }

  /** One ProgressMsg per record, same fields, same order. */
  function Progresses(rs: seq<OllamaResponse>): (ms: seq<Msg>)
    ensures |ms| == |rs|
    ensures forall i :: 0 <= i < |rs| ==> ms[i] == ProgressMsg(rs[i].status, rs[i].completed, rs[i].total)
  {
    seq(|rs|, i requires 0 <= i < |rs| => ProgressMsg(rs[i].status, rs[i].completed, rs[i].total))
  }

  /** What a streamed attempt forwards: the records read before any interruption. */
  function Forwarded(steps: seq<StreamStep>): (ms: seq<Msg>) {
    Progresses(Records(BeforeInterrupt(steps)))
  }

  /** The error a 200 attempt returns, read off the reference definitions. */
  function StreamError(steps: seq<StreamStep>, end: StreamEnd): (e: Option<GoError>) {
    var p := BeforeInterrupt(steps);
    if |p| < |steps| then
      (if steps[|p|].ContextDone? then Some(CanceledError) else Some(QuitError))
    else if end.ReadFailed? then Some(ReadError(end.err))
    else None
  }

  lemma ProgressesCons(r: OllamaResponse, rs: seq<OllamaResponse>)
    ensures Progresses([r] + rs) == [ToProgress(r)] + Progresses(rs)
  {
    assert Progresses([r] + rs)[0] == ToProgress(r);
  }

  /** A first step that does not interrupt is kept in front of the
      reference prefix. */
  lemma FirstStepKept(steps: seq<StreamStep>)
    requires |steps| > 0 && !Interrupts(steps[0])
    ensures BeforeInterrupt(steps) == [steps[0]] + BeforeInterrupt(steps[1..])
  {
  }

  /** A first step that does not interrupt leaves the reference error to the
      rest of the stream. */
  lemma FirstStepPasses(steps: seq<StreamStep>, end: StreamEnd)
    requires |steps| > 0 && !Interrupts(steps[0])
    ensures StreamError(steps, end) == StreamError(steps[1..], end)
  {
    var tail := steps[1..];
    var p := BeforeInterrupt(tail);
    FirstStepKept(steps);
    if |p| < |tail| {
      assert steps[|p| + 1] == tail[|p|];
    }
  }

  /** The records of a prefix with one more step in front. */
  lemma RecordsCons(st: StreamStep, p: seq<StreamStep>)
    ensures Records([st] + p) ==
      (if st.LineRead? && st.line.Decoded? then [st.line.resp] else []) + Records(p)
  {
    assert ([st] + p)[1..] == p;
  }

  /** Every decoded line before an interruption yields exactly one ProgressMsg
      with its fields, in arrival order; malformed lines yield nothing; the error
      returned is the interruption's, else the reader's (lines 118-151). */
  lemma {:induction false} DrainMatchesReference(steps: seq<StreamStep>, end: StreamEnd, finished: bool)
    ensures Drain(steps, end, finished).sent == Forwarded(steps)
    ensures Drain(steps, end, finished).err == StreamError(steps, end)
    decreases |steps|
  {
    if |steps| > 0 && !Interrupts(steps[0]) {
      var tail := steps[1..];
      FirstStepKept(steps);
      FirstStepPasses(steps, end);
      RecordsCons(steps[0], BeforeInterrupt(tail));
      match steps[0]
      case LineRead(Decoded(r)) =>
        DrainMatchesReference(tail, end, finished || r.status == SuccessStatus);
        ProgressesCons(r, Records(BeforeInterrupt(tail)));
      case LineRead(Malformed(_)) =>
        DrainMatchesReference(tail, end, finished);
      case ChoiceSent(_) =>
        DrainMatchesReference(tail, end, finished);
    }
  }

  /** A step that the processing loop ignores: a malformed line or a non-"Quit" choice. */
  predicate Ignored(st: StreamStep) {
    (st.LineRead? && st.line.Malformed?) || (st.ChoiceSent? && st.choice != QuitChoice)
  }

  function WithoutIgnored(steps: seq<StreamStep>): (r: seq<StreamStep>)
    ensures forall i :: 0 <= i < |r| ==> !Ignored(r[i])
    decreases |steps|
  {
    if |steps| == 0 then []
    else if Ignored(steps[0]) then WithoutIgnored(steps[1..])
    else [steps[0]] + WithoutIgnored(steps[1..])
  }

  /** Undecodable lines and non-"Quit" choices neither emit anything nor end
      the attempt: removing them changes nothing (lines 126-129, 138-142). */
  lemma {:induction false} IgnoredStepsChangeNothing(steps: seq<StreamStep>, end: StreamEnd, finished: bool)
    ensures Drain(steps, end, finished) == Drain(WithoutIgnored(steps), end, finished)
    decreases |steps|
  {
    if |steps| > 0 {
      var w := WithoutIgnored(steps[1..]);
      if Ignored(steps[0]) {
        IgnoredStepsChangeNothing(steps[1..], end, finished);
      } else {
        assert ([steps[0]] + w)[1..] == w;
        match steps[0]
        case LineRead(Decoded(r)) =>
          IgnoredStepsChangeNothing(steps[1..], end, finished || r.status == SuccessStatus);
        case _ =>
      }
    }
  }

  // ---------------------------------------------------------------------------
  // Session-wide invariants
  // ---------------------------------------------------------------------------

  /** How `Loop` goes round once when the first pass does not return. */
  lemma LoopGoesRound(req: PullRequest, flag: bool, finished: bool, its: seq<Iteration>)
    requires |its| > 0 && Step(flag, finished, its[0]).exit.None?
    ensures var r := Step(flag, finished, its[0]);
      Loop(req, flag, finished, its) == Continue(req, r.events, r.flag, r.finished, its[1..])
  {
  }

  /** How `Loop` ends when the first pass returns. */
  lemma LoopStops(req: PullRequest, flag: bool, finished: bool, its: seq<Iteration>)
    requires |its| > 0 && Step(flag, finished, its[0]).exit.Some?
    ensures var r := Step(flag, finished, its[0]);
      var s := Loop(req, flag, finished, its);
      s.events == r.events && s.flag == r.flag && s.exit == r.exit
  {
  }

  /** Any ErrorMsg is the last message of a session that has returned. */
  predicate ErrorOnlyLast(s: Session) {
    forall i :: 0 <= i < |s.events| && s.events[i].ErrorMsg? ==> i == |s.events| - 1 && s.exit.Some?
  }

  /** An ErrorMsg is emitted at most once, as the very last message, and only
      on a path that returns (lines 57-58, 193-194, 208-209). */
  lemma {:induction false} ErrorOnlyAtEnd(req: PullRequest, flag: bool, finished: bool, its: seq<Iteration>)
    ensures ErrorOnlyLast(Loop(req, flag, finished, its))
    decreases |its|
  {
    if |its| > 0 {
      var r := Step(flag, finished, its[0]);
      if r.exit.None? {
        var rest := Loop(req, r.flag, r.finished, its[1..]);
        ErrorOnlyAtEnd(req, r.flag, r.finished, its[1..]);
        assert ErrorOnlyLast(rest);
        LoopGoesRound(req, flag, finished, its);
        var s := Loop(req, flag, finished, its);
        assert s.events == r.events + rest.events && s.exit == rest.exit;
        assert |r.events| > 0 ==> !Last(r.events).ErrorMsg?;
        assert forall i :: 0 <= i < |r.events| ==> !r.events[i].ErrorMsg?;
        forall i | 0 <= i < |s.events| && s.events[i].ErrorMsg?
          ensures i == |s.events| - 1 && s.exit.Some?
        {
          assert i >= |r.events|;
          assert rest.events[i - |r.events|] == s.events[i];
        }
      }
    }
  }

  /** Two runs without a TimeoutMsg make one. */
  lemma NoTimeoutConcat(a: seq<Msg>, b: seq<Msg>)
    requires !SurfacedTimeout(a) && !SurfacedTimeout(b)
    ensures !SurfacedTimeout(a + b)
  {
    forall i | 0 <= i < |a + b|
      ensures !(a + b)[i].TimeoutMsg?
    {
      if i < |a| {
        assert (a + b)[i] == a[i];
      } else {
        assert (a + b)[i] == b[i - |a|];
      }
    }
  }

  /** One pass in continue mode surfaces no TimeoutMsg. */
  lemma StepHidesTimeout(finished: bool, it: Iteration)
    ensures !SurfacedTimeout(Step(true, finished, it).events)
  {
    var r := Step(true, finished, it);
    if |r.events| > 0 {
      assert !Last(r.events).TimeoutMsg?;
    }
  }

  /** In continue mode no TimeoutMsg is ever surfaced, for the rest of the
      session (lines 167-172). */
  lemma {:induction false} NoTimeoutInContinueMode(req: PullRequest, finished: bool, its: seq<Iteration>)
    ensures !SurfacedTimeout(Loop(req, true, finished, its).events)
    decreases |its|
  {
    if |its| > 0 {
      var r := Step(true, finished, its[0]);
      StepHidesTimeout(finished, its[0]);
      if r.exit.Some? {
        LoopStops(req, true, finished, its);
      } else {
        NoTimeoutInContinueMode(req, r.finished, its[1..]);
        LoopGoesRound(req, true, finished, its);
        NoTimeoutConcat(r.events, Loop(req, r.flag, r.finished, its[1..]).events);
      }
    }
  }

  /** `continueUntilComplete` never goes back to false, and it only becomes
      true after a TimeoutMsg was surfaced (lines 178-181, the only assignment). */
  lemma {:induction false} FlagRaisedOnlyAfterTimeout(req: PullRequest, flag: bool, finished: bool, its: seq<Iteration>)
    ensures flag ==> Loop(req, flag, finished, its).flag
    ensures !flag && Loop(req, flag, finished, its).flag ==> SurfacedTimeout(Loop(req, flag, finished, its).events)
    decreases |its|
  {
    if |its| > 0 && !flag {
      var r := Step(flag, finished, its[0]);
      var s := Loop(req, flag, finished, its);
      if r.exit.None? {
        var rest := Loop(req, r.flag, r.finished, its[1..]);
        assert s.events == r.events + rest.events;
        if r.flag {
          assert s.events[|r.events| - 1] == Last(r.events);
        } else {
          FlagRaisedOnlyAfterTimeout(req, r.flag, r.finished, its[1..]);
          if rest.flag {
            var j :| 0 <= j < |rest.events| && rest.events[j].TimeoutMsg?;
            assert s.events[|r.events| + j] == rest.events[j];
          }
        }
      }
    }
  }

  /** An iteration whose attempt hits the 30 s deadline before any response and
      whose user answers "Continue (until next error)". */
  predicate TimesOutThenRetriesOnce(it: Iteration) {
    && it.top.Idle?
    && it.attempt.TransportFailed?
    && it.attempt.err.kind == IoDeadline
    && !Contains(it.attempt.err.text, UserQuitText)
    && it.decision == Chose(ContinueOnce)
  }

  /** Such an iteration surfaces one TimeoutMsg and goes round unchanged. */
  lemma StepTimesOut(finished: bool, it: Iteration)
    requires TimesOutThenRetriesOnce(it)
    ensures var r := Step(false, finished, it);
      r.events == [TimeoutMsg] && r.exit.None? && !r.flag && r.finished == finished
  {
  }

  /** If every attempt times out and the answer is always "Continue (until next
      error)", one TimeoutMsg is surfaced per attempt, never batched or suppressed. */
  lemma {:induction false} OneTimeoutPerAttempt(req: PullRequest, finished: bool, its: seq<Iteration>)
    requires forall k :: 0 <= k < |its| ==> TimesOutThenRetriesOnce(its[k])
    ensures var s := Loop(req, false, finished, its);
      && s.exit.None? && !s.flag && |s.requests| == |its|
      && s.events == seq(|its|, _ => TimeoutMsg)
    decreases |its|
  {
    if |its| > 0 {
      StepTimesOut(finished, its[0]);
      OneTimeoutPerAttempt(req, finished, its[1..]);
      LoopGoesRound(req, false, finished, its);
      assert seq(|its|, _ => TimeoutMsg) == [TimeoutMsg] + seq(|its| - 1, _ => TimeoutMsg);
    }
  }

  // ---------------------------------------------------------------------------
  // The top of the loop (lines 68-79)
  // ---------------------------------------------------------------------------

  /** Cancellation, or "Quit" waiting at the top of the loop, ends the session
      before any attempt and without any message. */
  lemma CancelOrQuitBeforeAttempt(req: PullRequest, flag: bool, finished: bool, its: seq<Iteration>)
    requires |its| > 0 && (its[0].top == TopCancelled || its[0].top == TopChoice(QuitChoice))
    ensures var s := Loop(req, flag, finished, its);
      s.events == [] && s.requests == [] && s.flag == flag && s.exit.Some?
  {
  }

  /** Any other choice waiting at the top of the loop is read and discarded. */
  lemma OtherTopChoiceDiscarded(req: PullRequest, flag: bool, finished: bool, its: seq<Iteration>)
    requires |its| > 0 && its[0].top.TopChoice? && its[0].top.choice != QuitChoice
    ensures Loop(req, flag, finished, its) == Loop(req, flag, finished, [its[0].(top := Idle)] + its[1..])
  {
    assert ([its[0].(top := Idle)] + its[1..])[1..] == its[1..];
  }

  // ---------------------------------------------------------------------------
  // How each kind of attempt ends the session or continues it
  // ---------------------------------------------------------------------------

  /** The session after an attempt that the loop goes past: `mine` was sent
      during this pass, then the rest of the trace runs with the given flags. */
  function Continue(req: PullRequest, mine: seq<Msg>, flag: bool, finished: bool, rest: seq<Iteration>): (s: Session) {
    var s := Loop(req, flag, finished, rest);
    Session(mine + s.events, [req] + s.requests, s.flag, s.exit)
  }

  /** A failure to build the request is reported once, posts nothing and is
      never retried (lines 87-90, 191-195). */
  lemma BuildFailureIsFatal(req: PullRequest, flag: bool, finished: bool, reason: string, d: Decision, rest: seq<Iteration>)
    requires !Contains(BuildError(reason).text, UserQuitText)
    ensures Loop(req, flag, finished, [Iteration(Idle, BuildFailed(reason), d)] + rest)
         == Session([ErrorMsg("error creating request: " + reason)], [], flag, Some(Failed))
  {
  }

  /** The status message starts with the fixed words and the code in decimal. */
  lemma StatusPrefix(code: int, body: string)
    ensures HasPrefix(StatusErrorText(code, body), "ollama API returned status " + FormatInt(code))
  {
    var p := "ollama API returned status " + FormatInt(code);
    assert StatusErrorText(code, body) == p + (": " + body);
    assert StatusErrorText(code, body)[..|p|] == p;
  }

  /** Any status other than 200, with a body that does not say "user quit",
      is reported once, with a message starting "ollama API returned status
      <code>", and never retried (lines 99-102, 191-195). */
  lemma BadStatusIsFatal(req: PullRequest, flag: bool, finished: bool, code: int, body: string,
                         steps: seq<StreamStep>, end: StreamEnd, d: Decision, rest: seq<Iteration>)
    requires code != 200
    requires !Contains(body, UserQuitText)
    ensures HasPrefix(StatusErrorText(code, body), "ollama API returned status " + FormatInt(code))
    ensures Loop(req, flag, finished, [Iteration(Idle, Responded(code, body, steps, end), d)] + rest)
         == Session([ErrorMsg(StatusErrorText(code, body))], [req], flag, Some(Failed))
  {
    assert !Contains(StatusErrorText(code, body), UserQuitText) by {
      StatusTextKeepsQuit(code, body);
    }
    StatusPrefix(code, body);
  }

  /** No character of `s` is a 'u'. */
  predicate WithoutU(s: string) {
    forall i :: 0 <= i < |s| ==> s[i] != 'u'
  }

  lemma WithoutUConcat(a: string, b: string)
    requires WithoutU(a) && WithoutU(b)
    ensures WithoutU(a + b)
  {
    assert forall i :: |a| <= i < |a + b| ==> (a + b)[i] == b[i - |a|];
  }

  lemma FormatIntWithoutU(n: int)
    ensures WithoutU(FormatInt(n))
  {
    var d := NatToDecimal(if n < 0 then -n else n);
    assert WithoutU(d) by {
      assert AllDigits(d);
    }
    if n < 0 {
      WithoutUConcat("-", d);
    }
  }

  /** The status message, cut at the two 'u's of its fixed start. */
  lemma StatusPieces(f: string, body: string)
    ensures "ollama API returned status " + f + ": " + body
         == "ollama API ret" + ("u" + ("rned stat" + ("u" + ("s " + f + ": " + body))))
  {
    assert "ollama API returned status " == "ollama API ret" + "u" + "rned stat" + "u" + "s ";
  }

  /** Putting one character in front of a text creates an occurrence only
      at the very start. */
  lemma ConsKeepsOccurrences(c: char, x: string, sub: string)
    requires !HasPrefix([c] + x, sub)
    ensures Contains([c] + x, sub) <==> Contains(x, sub)
  {
    assert ([c] + x)[1..] == x;
  }

  /** A text that differs from `sub` at position `k` does not start with it. */
  lemma MismatchNoPrefix(s: string, sub: string, k: nat)
    requires k < |s| && k < |sub| && s[k] != sub[k]
    ensures !HasPrefix(s, sub)
  {
    if |sub| <= |s| {
      assert s[..|sub|][k] == s[k];
    }
  }

  /** A 'u' in front of a text neither adds nor removes an occurrence of
      "user quit" unless the text goes on with "se". */
  lemma QuitAfterU(x: string)
    requires |x| >= 2 && (x[0] != 's' || x[1] != 'e')
    ensures Contains("u" + x, UserQuitText) <==> Contains(x, UserQuitText)
  {
    var ux := ['u'] + x;
    var q := UserQuitText;
    assert q[1] == 's' && q[2] == 'e';
    if x[0] != 's' {
      MismatchNoPrefix(ux, q, 1);
    } else {
      MismatchNoPrefix(ux, q, 2);
    }
    ConsKeepsOccurrences('u', x, q);
  }

  /** In a text whose only 'u's before `tail` are the two marked ones, neither
      followed by "se", "user quit" occurs exactly when it occurs in `tail`. */
  lemma TwoUsKeepQuit(p1: string, p2: string, tail: string)
    requires WithoutU(p1) && WithoutU(p2)
    requires |p2| >= 2 && p2[0] != 's'
    requires |tail| >= 2 && tail[1] != 'e'
    ensures Contains(p1 + ("u" + (p2 + ("u" + tail))), UserQuitText) <==> Contains(tail, UserQuitText)
  {
    assert UserQuitText[0] == 'u';
    QuitAfterU(tail);
    SkipPrefixWithoutFirstChar(p2, "u" + tail, UserQuitText);
    assert (p2 + ("u" + tail))[0] == p2[0];
    QuitAfterU(p2 + ("u" + tail));
    SkipPrefixWithoutFirstChar(p1, "u" + (p2 + ("u" + tail)), UserQuitText);
  }

  /** The status message contains "user quit" exactly when the body does:
      its fixed words and the status code never make one (line 101). */
  lemma StatusTextKeepsQuit(code: int, body: string)
    ensures Contains(StatusErrorText(code, body), UserQuitText) <==> Contains(body, UserQuitText)
  {
    var mid := "s " + FormatInt(code) + ": ";
    FormatIntWithoutU(code);
    WithoutUConcat("s ", FormatInt(code));
    WithoutUConcat("s " + FormatInt(code), ": ");
    assert UserQuitText[0] == 'u';
    SkipPrefixWithoutFirstChar(mid, body, UserQuitText);
    assert (mid + body)[1] == ' ';
    TwoUsKeepQuit("ollama API ret", "rned stat", mid + body);
    StatusPieces(FormatInt(code), body);
  }

  /** The fixed prefix of the read error holds no 'u', so that error
      contains "user quit" exactly when the underlying error does (line 150). */
  lemma ReadErrorKeepsQuit(io: IoError)
    ensures Contains(ReadError(io).text, UserQuitText) <==> Contains(io.text, UserQuitText)
  {
    SkipPrefixWithoutFirstChar("error reading response stream: ", io.text, UserQuitText);
  }

  /** Because the loop recognises the quit error by its text, any error whose
      text contains "user quit" — a status body saying so, for instance — ends
      the session silently instead (line 157). */
  lemma UserQuitTextEndsSilently(req: PullRequest, flag: bool, finished: bool, code: int, body: string,
                                 steps: seq<StreamStep>, end: StreamEnd, d: Decision, rest: seq<Iteration>)
    requires code != 200
    requires Contains(body, UserQuitText)
    ensures Loop(req, flag, finished, [Iteration(Idle, Responded(code, body, steps, end), d)] + rest)
         == Session([], [req], flag, Some(AbandonedAttempt))
  {
    assert Contains(StatusErrorText(code, body), UserQuitText) by {
      StatusTextKeepsQuit(code, body);
    }
  }

  /** A transport error that is neither a timeout nor a cancellation is
      reported once and never retried (lines 93-96, 191-195). */
  lemma TransportFailureIsFatal(req: PullRequest, flag: bool, finished: bool, io: IoError, d: Decision, rest: seq<Iteration>)
    requires io.kind == IoOther && !Contains(io.text, UserQuitText)
    ensures Loop(req, flag, finished, [Iteration(Idle, TransportFailed(io), d)] + rest)
         == Session([ErrorMsg(io.text)], [req], flag, Some(Failed))
  {
  }

  /** A transport timeout in continue mode is retried with no message (lines 167-172). */
  lemma TimeoutRetriedSilently(req: PullRequest, finished: bool, io: IoError, d: Decision, rest: seq<Iteration>)
    requires io.kind == IoDeadline || io.kind == IoNetTimeout
    requires !Contains(io.text, UserQuitText)
    ensures Loop(req, true, finished, [Iteration(Idle, TransportFailed(io), d)] + rest)
         == Continue(req, [], true, finished, rest)
  {
    assert ([Iteration(Idle, TransportFailed(io), d)] + rest)[1..] == rest;
  }

  /** In interactive mode a timeout surfaces one TimeoutMsg and then the
      answer decides: "Continue (until next error)" retries as before,
      "Continue (until download completed)" retries in continue mode, anything
      else or cancellation ends the session with no further message (lines 174-190). */
  lemma TimeoutAsksUser(req: PullRequest, finished: bool, io: IoError, d: Decision, rest: seq<Iteration>)
    requires io.kind == IoDeadline || io.kind == IoNetTimeout
    requires !Contains(io.text, UserQuitText)
    ensures var s := Loop(req, false, finished, [Iteration(Idle, TransportFailed(io), d)] + rest);
      && (d == Chose(ContinueOnce) ==> s == Continue(req, [TimeoutMsg], false, finished, rest))
      && (d == Chose(ContinueAll) ==> s == Continue(req, [TimeoutMsg], true, finished, rest))
      && (d != Chose(ContinueOnce) && d != Chose(ContinueAll) ==> s == Session([TimeoutMsg], [req], false, Some(Declined)))
  {
    var it := Iteration(Idle, TransportFailed(io), d);
    var its := [it] + rest;
    assert its[0] == it && its[1..] == rest;
    assert Classify(TransportError(io)) == Retryable;
    var r := Step(false, finished, it);
    assert r.events == [TimeoutMsg] && r.finished == finished;
    if d == Chose(ContinueOnce) {
      assert r.exit.None? && !r.flag;
      LoopGoesRound(req, false, finished, its);
    } else if d == Chose(ContinueAll) {
      assert r.exit.None? && r.flag;
      LoopGoesRound(req, false, finished, its);
    } else {
      assert r.exit == Some(Declined) && !r.flag;
    }
  }

  /** Whatever the attempt, once it has surfaced a TimeoutMsg the answer
      decides alone: the first "Continue" goes round in the same mode, the
      second goes round in continue mode, anything else ends the session
      (lines 174-190). */
  lemma AfterTimeoutAnyAttempt(flag: bool, finished: bool, a: Attempt, d: Decision)
    ensures var r := AttemptStep(flag, finished, a, d);
      |r.events| > 0 && Last(r.events).TimeoutMsg? ==>
        && (d == Chose(ContinueOnce) ==> r.exit.None? && r.flag == flag)
        && (d == Chose(ContinueAll) ==> r.exit.None? && r.flag)
        && (d != Chose(ContinueOnce) && d != Chose(ContinueAll) ==> r.exit == Some(Declined))
  {
  }

  /** The context deadline cutting a stream short in interactive mode: the
      records read so far are forwarded, then one TimeoutMsg, and the answer
      decides as for a timeout before any response (lines 149-151, 162-190). */
  lemma ReadDeadlineAsksUser(req: PullRequest, finished: bool, body: string,
                             steps: seq<StreamStep>, io: IoError, d: Decision, rest: seq<Iteration>)
    requires |BeforeInterrupt(steps)| == |steps|
    requires io.kind == IoDeadline && !Contains(io.text, UserQuitText)
    ensures var s := Loop(req, false, finished, [Iteration(Idle, Responded(200, body, steps, ReadFailed(io)), d)] + rest);
      var sent := Forwarded(steps) + [TimeoutMsg];
      var f := finished || SawSuccess(Forwarded(steps));
      && (d == Chose(ContinueOnce) ==> s == Continue(req, sent, false, f, rest))
      && (d == Chose(ContinueAll) ==> s == Continue(req, sent, true, f, rest))
      && (d != Chose(ContinueOnce) && d != Chose(ContinueAll) ==> s == Session(sent, [req], false, Some(Declined)))
  {
    ReadErrorKeepsQuit(io);
    DrainMatchesReference(steps, ReadFailed(io), finished);
    var its := [Iteration(Idle, Responded(200, body, steps, ReadFailed(io)), d)] + rest;
    assert its[1..] == rest;
    var r := Step(false, finished, its[0]);
    assert r.events == Forwarded(steps) + [TimeoutMsg];
    if r.exit.None? {
      LoopGoesRound(req, false, finished, its);
    } else {
      LoopStops(req, false, finished, its);
    }
  }

  /** A cancellation while `client.Do` waits ends the session with no message
      (lines 93-96, 155-160). */
  lemma CancelledRequestEndsSilently(req: PullRequest, flag: bool, finished: bool, text: string,
                                     d: Decision, rest: seq<Iteration>)
    ensures Loop(req, flag, finished, [Iteration(Idle, TransportFailed(IoError(text, IoCanceled)), d)] + rest)
         == Session([], [req], flag, Some(AbandonedAttempt))
  {
  }

  /** A cancellation reported by the body reader ends the session after the
      records already forwarded, with no message of its own (lines 149-151,
      155-160). */
  lemma CancelledReadEndsSilently(req: PullRequest, flag: bool, finished: bool, body: string,
                                  steps: seq<StreamStep>, text: string, d: Decision, rest: seq<Iteration>)
    requires |BeforeInterrupt(steps)| == |steps|
    ensures Loop(req, flag, finished, [Iteration(Idle, Responded(200, body, steps, ReadFailed(IoError(text, IoCanceled))), d)] + rest)
         == Session(Forwarded(steps), [req], flag, Some(AbandonedAttempt))
  {
    DrainMatchesReference(steps, ReadFailed(IoError(text, IoCanceled)), finished);
  }

  /** A "Quit" choice or a cancellation during the stream ends the session
      after the records already forwarded, with no TimeoutMsg or ErrorMsg
      (lines 138-146, 155-160). */
  lemma InterruptedStreamEndsSilently(req: PullRequest, flag: bool, finished: bool, body: string,
                                      steps: seq<StreamStep>, end: StreamEnd, d: Decision, rest: seq<Iteration>)
    requires |BeforeInterrupt(steps)| < |steps|
    ensures Loop(req, flag, finished, [Iteration(Idle, Responded(200, body, steps, end), d)] + rest)
         == Session(Forwarded(steps), [req], flag, Some(AbandonedAttempt))
  {
    DrainMatchesReference(steps, end, finished);
    var p := BeforeInterrupt(steps);
    if steps[|p|].ContextDone? {
      assert CanceledError.canceled;
    } else {
      ContainsSelf(UserQuitText);
    }
  }

  /** A clean end of a stream once a "success" record has been seen — in this
      attempt or an earlier one, since `downloadFinished` outlives the attempt —
      ends the session with no further attempt (lines 63, 130-132, 198-201). */
  lemma CleanEndAfterSuccessFinishes(req: PullRequest, flag: bool, finished: bool, body: string,
                                     steps: seq<StreamStep>, d: Decision, rest: seq<Iteration>)
    requires |BeforeInterrupt(steps)| == |steps|
    requires finished || SawSuccess(Forwarded(steps))
    ensures Loop(req, flag, finished, [Iteration(Idle, Responded(200, body, steps, CleanEof), d)] + rest)
         == Session(Forwarded(steps), [req], flag, Some(Finished))
  {
    DrainMatchesReference(steps, CleanEof, finished);
  }

  /** A clean end without any "success" record: in continue mode the loop
      retries silently; otherwise it reports "download stream ended
      unexpectedly" and returns (lines 203-210). */
  lemma CleanEndWithoutSuccess(req: PullRequest, flag: bool, body: string,
                               steps: seq<StreamStep>, d: Decision, rest: seq<Iteration>)
    requires |BeforeInterrupt(steps)| == |steps|
    requires !SawSuccess(Forwarded(steps))
    ensures var s := Loop(req, flag, false, [Iteration(Idle, Responded(200, body, steps, CleanEof), d)] + rest);
      && (flag ==> s == Continue(req, Forwarded(steps), true, false, rest))
      && (!flag ==> s == Session(Forwarded(steps) + [ErrorMsg(UnexpectedEndText)], [req], false, Some(EndedUnexpectedly)))
  {
    DrainMatchesReference(steps, CleanEof, false);
    assert ([Iteration(Idle, Responded(200, body, steps, CleanEof), d)] + rest)[1..] == rest;
  }

  /** A read error from a network timeout other than the context deadline is
      fatal: wrapping it with `fmt.Errorf` defeats the `net.Error` assertion of
      line 163, so the timeout check misses it (lines 149-151, 162-165). */
  lemma ReadNetTimeoutIsFatal(req: PullRequest, flag: bool, finished: bool, body: string,
                              steps: seq<StreamStep>, io: IoError, d: Decision, rest: seq<Iteration>)
    requires |BeforeInterrupt(steps)| == |steps|
    requires io.kind == IoNetTimeout
    requires !Contains(io.text, UserQuitText)
    ensures Loop(req, flag, finished, [Iteration(Idle, Responded(200, body, steps, ReadFailed(io)), d)] + rest)
         == Session(Forwarded(steps) + [ErrorMsg(ReadError(io).text)], [req], flag, Some(Failed))
  {
    ReadErrorKeepsQuit(io);
    DrainMatchesReference(steps, ReadFailed(io), finished);
  }

  /** The context deadline cutting a stream short is a timeout (it is not
      a `net.Error` check but `errors.Is` on the deadline): in continue mode the
      loop goes round silently, keeping what the stream forwarded and whether
      it saw "success" (lines 149-151, 162-172). */
  lemma ReadDeadlineRetriedSilently(req: PullRequest, finished: bool, body: string,
                                    steps: seq<StreamStep>, io: IoError, d: Decision, rest: seq<Iteration>)
    requires |BeforeInterrupt(steps)| == |steps|
    requires io.kind == IoDeadline && !Contains(io.text, UserQuitText)
    ensures Loop(req, true, finished, [Iteration(Idle, Responded(200, body, steps, ReadFailed(io)), d)] + rest)
         == Continue(req, Forwarded(steps), true, finished || SawSuccess(Forwarded(steps)), rest)
  {
    ReadErrorKeepsQuit(io);
    DrainMatchesReference(steps, ReadFailed(io), finished);
    var its := [Iteration(Idle, Responded(200, body, steps, ReadFailed(io)), d)] + rest;
    assert its[1..] == rest;
    LoopGoesRound(req, true, finished, its);
  }

  // ---------------------------------------------------------------------------
  // The channel as the consumer sees it
  // ---------------------------------------------------------------------------

  /** progressCh is closed at most once, exactly when the goroutine returns, and
      an ErrorMsg is always the message just before the close (lines 45-47). */
  lemma ErrorIsLastBeforeClose(model: string, flag: bool, its: seq<Iteration>)
    ensures var ops := PullModel(model, flag, its);
      && (forall i :: 0 <= i < |ops| && ops[i].Close? ==> i == |ops| - 1)
      && (forall i :: 0 <= i < |ops| && ops[i].Send? && ops[i].msg.ErrorMsg? ==> i == |ops| - 2 && ops[|ops| - 1].Close?)
  {
    var req := PullRequest(model, true);
    ErrorOnlyAtEnd(req, flag, false, its);
    var s := Loop(req, flag, false, its);
    assert ErrorOnlyLast(s);
    var ops := PullModel(model, flag, its);
    assert |ops| == |s.events| || (|ops| == |s.events| + 1 && ops[|s.events|] == Close);
    assert forall i :: 0 <= i < |s.events| ==> ops[i] == Send(s.events[i]);
    forall i | 0 <= i < |ops| && ops[i].Send? && ops[i].msg.ErrorMsg?
      ensures i == |ops| - 2 && ops[|ops| - 1].Close?
    {
      assert i < |s.events|;
      assert s.events[i].ErrorMsg?;
    }
  }
}

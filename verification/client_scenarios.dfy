/** Concrete sessions of the retry controller, some taken from
    client/client_test.go, run through the model. */
module ClientScenarios {
  import opened GoBase
  import opened Client
  import opened ClientProperties

  /** The request of every attempt, for an arbitrary model name (the name
      plays no part in the controller). */
  function Req(model: string): (req: PullRequest) {
    PullRequest(model, true)
  }

  /** An attempt that hits the 30 s deadline before any response arrives;
      the error text is left open, apart from not containing "user quit". */
  function TimedOut(text: string): (a: Attempt) {
    TransportFailed(IoError(text, IoDeadline))
  }

  /** The lines of a stream made only of decoded records. */
  function Lines(rs: seq<OllamaResponse>): (steps: seq<StreamStep>)
    ensures |steps| == |rs|
    ensures forall i :: 0 <= i < |rs| ==> steps[i] == LineRead(Decoded(rs[i]))
  {
    seq(|rs|, i requires 0 <= i < |rs| => LineRead(Decoded(rs[i])))
  }

  /** A stream of records only is never interrupted and forwards every record. */
  lemma {:induction false} RecordsOnlyForwardAll(rs: seq<OllamaResponse>)
    ensures BeforeInterrupt(Lines(rs)) == Lines(rs)
    ensures Records(Lines(rs)) == rs
    decreases |rs|
  {
    if |rs| > 0 {
      assert Lines(rs)[1..] == Lines(rs[1..]);
      RecordsOnlyForwardAll(rs[1..]);
      assert Lines(rs) == [Lines(rs)[0]] + Lines(rs[1..]);
      assert rs == [rs[0]] + rs[1..];
    }
  }

  /** The channel operations of a session that has returned. */
  lemma ReturnedSessionCloses(model: string, flag: bool, its: seq<Iteration>, events: seq<Msg>)
    requires Loop(PullRequest(model, true), flag, false, its).exit.Some?
    requires Loop(PullRequest(model, true), flag, false, its).events == events
    ensures PullModel(model, flag, its) == seq(|events|, i requires 0 <= i < |events| => Send(events[i])) + [Close]
  {
  }

  const SuccessRecord: OllamaResponse := OllamaResponse(SuccessStatus, "", 100, 100)

  /** A stream that ends cleanly after one "success" record. */
  const Succeeds: Attempt := Responded(200, "", Lines([SuccessRecord]), CleanEof)

  /** A final attempt that streams `rs`, the last being a success, ends the
      session with their ProgressMsgs. */
  lemma FinalSuccess(model: string, flag: bool, finished: bool, rs: seq<OllamaResponse>, d: Decision)
    requires |rs| > 0 && rs[|rs| - 1].status == SuccessStatus
    ensures Loop(Req(model), flag, finished, [Iteration(Idle, Responded(200, "", Lines(rs), CleanEof), d)])
         == Session(Progresses(rs), [Req(model)], flag, Some(Finished))
  {
    RecordsOnlyForwardAll(rs);
    assert Forwarded(Lines(rs)) == Progresses(rs);
    assert Progresses(rs)[|rs| - 1].status == SuccessStatus;
    var it := Iteration(Idle, Responded(200, "", Lines(rs), CleanEof), d);
    assert [it] + [] == [it];
    CleanEndAfterSuccessFinishes(Req(model), flag, finished, "", Lines(rs), d, []);
  }

  /** Downloading 10, 50, 90 of 100, then a success record: four
      ProgressMsgs with those figures, then the close; no TimeoutMsg, no ErrorMsg. */
  lemma ScenarioStreamToSuccess(model: string)
    ensures var rs := [OllamaResponse("downloading", "", 100, 10), OllamaResponse("downloading", "", 100, 50),
                       OllamaResponse("downloading", "", 100, 90), SuccessRecord];
      PullModel(model, false, [Iteration(Idle, Responded(200, "", Lines(rs), CleanEof), DecisionCancelled)])
      == [Send(ProgressMsg("downloading", 10, 100)), Send(ProgressMsg("downloading", 50, 100)),
          Send(ProgressMsg("downloading", 90, 100)), Send(ProgressMsg(SuccessStatus, 100, 100)), Close]
  {
    var rs := [OllamaResponse("downloading", "", 100, 10), OllamaResponse("downloading", "", 100, 50),
               OllamaResponse("downloading", "", 100, 90), SuccessRecord];
    FinalSuccess(model, false, false, rs, DecisionCancelled);
    ReturnedSessionCloses(model, false, [Iteration(Idle, Responded(200, "", Lines(rs), CleanEof), DecisionCancelled)], Progresses(rs));
  }

  /** A timeout, "Continue (until next error)", then a successful attempt:
      one TimeoutMsg, the success ProgressMsg, the close; two attempts. */
  lemma ScenarioRetryOnceThenSuccess(model: string, text: string)
    requires !Contains(text, UserQuitText)
    ensures var its := [Iteration(Idle, TimedOut(text), Chose(ContinueOnce)), Iteration(Idle, Succeeds, DecisionCancelled)];
      && Loop(Req(model), false, false, its) == Session([TimeoutMsg, ProgressMsg(SuccessStatus, 100, 100)], [Req(model), Req(model)], false, Some(Finished))
      && PullModel(model, false, its) == [Send(TimeoutMsg), Send(ProgressMsg(SuccessStatus, 100, 100)), Close]
  {
    var last := [Iteration(Idle, Succeeds, DecisionCancelled)];
    var its := [Iteration(Idle, TimedOut(text), Chose(ContinueOnce))] + last;
    TimeoutAsksUser(Req(model), false, TimedOut(text).err, Chose(ContinueOnce), last);
    FinalSuccess(model, false, false, [SuccessRecord], DecisionCancelled);
    ReturnedSessionCloses(model, false, its, [TimeoutMsg, ProgressMsg(SuccessStatus, 100, 100)]);
  }

  /** The message for status 500 names the code in decimal. */
  lemma Status500Prefix(body: string)
    ensures HasPrefix(StatusErrorText(500, body), "ollama API returned status 500")
  {
    assert FormatInt(500) == "500" by {
      assert NatToDecimal(5) == "5";
      assert NatToDecimal(50) == "50";
    }
    var p := "ollama API returned status 500";
    assert StatusErrorText(500, body) == p + (": " + body);
    assert StatusErrorText(500, body)[..|p|] == p;
  }

  /** HTTP 500: exactly one ErrorMsg, starting "ollama API returned status
      500", then the close; the rest of the trace is never reached. A body
      that says "user quit" ends the session with the close alone. */
  lemma ScenarioServerError(model: string, body: string, rest: seq<Iteration>)
    ensures HasPrefix(StatusErrorText(500, body), "ollama API returned status 500")
    ensures !Contains(body, UserQuitText) ==>
      PullModel(model, false, [Iteration(Idle, Responded(500, body, [], CleanEof), DecisionCancelled)] + rest)
      == [Send(ErrorMsg(StatusErrorText(500, body))), Close]
    ensures Contains(body, UserQuitText) ==>
      PullModel(model, false, [Iteration(Idle, Responded(500, body, [], CleanEof), DecisionCancelled)] + rest)
      == [Close]
  {
    var its := [Iteration(Idle, Responded(500, body, [], CleanEof), DecisionCancelled)] + rest;
    Status500Prefix(body);
    if Contains(body, UserQuitText) {
      UserQuitTextEndsSilently(Req(model), false, false, 500, body, [], CleanEof, DecisionCancelled, rest);
      ReturnedSessionCloses(model, false, its, []);
    } else {
      BadStatusIsFatal(Req(model), false, false, 500, body, [], CleanEof, DecisionCancelled, rest);
      ReturnedSessionCloses(model, false, its, [ErrorMsg(StatusErrorText(500, body))]);
    }
  }

  /** A timeout, "Continue (until download completed)", two silent timeouts,
      then success: exactly one TimeoutMsg in all, and four attempts. The
      answers recorded for the later iterations are never read. */
  lemma ScenarioContinueUntilComplete(model: string, text: string)
    requires !Contains(text, UserQuitText)
    ensures var its := [Iteration(Idle, TimedOut(text), Chose(ContinueAll)), Iteration(Idle, TimedOut(text), Chose(QuitChoice)),
                        Iteration(Idle, TimedOut(text), Chose(QuitChoice)), Iteration(Idle, Succeeds, DecisionCancelled)];
      Loop(Req(model), false, false, its)
      == Session([TimeoutMsg, ProgressMsg(SuccessStatus, 100, 100)], [Req(model), Req(model), Req(model), Req(model)], true, Some(Finished))
  {
    var io := TimedOut(text).err;
    var t3 := [Iteration(Idle, Succeeds, DecisionCancelled)];
    var t2 := [Iteration(Idle, TimedOut(text), Chose(QuitChoice))] + t3;
    var t1 := [Iteration(Idle, TimedOut(text), Chose(QuitChoice))] + t2;
    FinalSuccess(model, true, false, [SuccessRecord], DecisionCancelled);
    TimeoutRetriedSilently(Req(model), false, io, Chose(QuitChoice), t3);
    TimeoutRetriedSilently(Req(model), false, io, Chose(QuitChoice), t2);
    TimeoutAsksUser(Req(model), false, io, Chose(ContinueAll), t1);
    assert Progresses([SuccessRecord]) == [ProgressMsg(SuccessStatus, 100, 100)];
    assert [Iteration(Idle, TimedOut(text), Chose(ContinueAll))] + t1
        == [Iteration(Idle, TimedOut(text), Chose(ContinueAll)), Iteration(Idle, TimedOut(text), Chose(QuitChoice)),
            Iteration(Idle, TimedOut(text), Chose(QuitChoice)), Iteration(Idle, Succeeds, DecisionCancelled)];
  }

  /** An empty 200 body in interactive mode: the code reports "download stream
      ended unexpectedly" and stops, where client_test.go:652-661 expects a
      TimeoutMsg. */
  lemma EmptyResponseEmitsError(model: string)
    ensures PullModel(model, false, [Iteration(Idle, Responded(200, "", [], CleanEof), Chose(QuitChoice))])
         == [Send(ErrorMsg(UnexpectedEndText)), Close]
  {
    var its := [Iteration(Idle, Responded(200, "", [], CleanEof), Chose(QuitChoice))];
    assert BeforeInterrupt([]) == [] && Forwarded([]) == [];
    assert its == [its[0]] + [];
    CleanEndWithoutSuccess(Req(model), false, "", [], Chose(QuitChoice), []);
    ReturnedSessionCloses(model, false, its, [ErrorMsg(UnexpectedEndText)]);
  }

  /** The reply of the slow servers in client_test.go:95-130, 245-312,
      314-381 and 383-419: status 200 and one `{}` line. Nothing in the
      attempt carries a deadline short enough to cut it, so the empty record
      is forwarded as a ProgressMsg and, with no "success" seen, the session
      in interactive mode ends with "download stream ended unexpectedly"
      rather than a TimeoutMsg. */
  lemma EmptyRecordEndsWithError(model: string, d: Decision, rest: seq<Iteration>)
    ensures PullModel(model, false,
      [Iteration(Idle, Responded(200, "", [LineRead(Decoded(OllamaResponse("", "", 0, 0)))], CleanEof), d)] + rest)
      == [Send(ProgressMsg("", 0, 0)), Send(ErrorMsg(UnexpectedEndText)), Close]
  {
    var rs := [OllamaResponse("", "", 0, 0)];
    var its := [Iteration(Idle, Responded(200, "", Lines(rs), CleanEof), d)] + rest;
    RecordsOnlyForwardAll(rs);
    assert Forwarded(Lines(rs)) == [ProgressMsg("", 0, 0)];
    CleanEndWithoutSuccess(Req(model), false, "", Lines(rs), d, rest);
    ReturnedSessionCloses(model, false, its, [ProgressMsg("", 0, 0), ErrorMsg(UnexpectedEndText)]);
  }

  /** A line that is not JSON is skipped and the success record after it is
      still forwarded (client_test.go:421-455). */
  lemma InvalidLineSkipped(model: string, raw: string)
    ensures PullModel(model, false,
      [Iteration(Idle, Responded(200, "", [LineRead(Malformed(raw))] + Lines([SuccessRecord]), CleanEof), DecisionCancelled)])
      == [Send(ProgressMsg(SuccessStatus, 100, 100)), Close]
  {
    var steps := [LineRead(Malformed(raw))] + Lines([SuccessRecord]);
    var its := [Iteration(Idle, Responded(200, "", steps, CleanEof), DecisionCancelled)];
    assert steps[1..] == Lines([SuccessRecord]);
    IgnoredStepsChangeNothing(steps, CleanEof, false);
    IgnoredStepsChangeNothing(Lines([SuccessRecord]), CleanEof, false);
    assert WithoutIgnored(steps) == WithoutIgnored(Lines([SuccessRecord]));
    assert Drain(steps, CleanEof, false) == Drain(Lines([SuccessRecord]), CleanEof, false);
    FinalSuccess(model, false, false, [SuccessRecord], DecisionCancelled);
    ReturnedSessionCloses(model, false, its, [ProgressMsg(SuccessStatus, 100, 100)]);
  }

  /** `downloadFinished` outlives its attempt: a success record followed by a
      deadline mid-stream (retried silently in continue mode), then a retry
      whose stream ends at once, finishes without any ErrorMsg. */
  lemma FinishedSurvivesRetry(model: string, text: string)
    requires !Contains(text, UserQuitText)
    ensures var its := [Iteration(Idle, Responded(200, "", Lines([SuccessRecord]), ReadFailed(IoError(text, IoDeadline))), DecisionCancelled),
                        Iteration(Idle, Responded(200, "", [], CleanEof), DecisionCancelled)];
      Loop(Req(model), true, false, its) == Session([ProgressMsg(SuccessStatus, 100, 100)], [Req(model), Req(model)], true, Some(Finished))
  {
    var last := [Iteration(Idle, Responded(200, "", [], CleanEof), DecisionCancelled)];
    var io := IoError(text, IoDeadline);
    var its := [Iteration(Idle, Responded(200, "", Lines([SuccessRecord]), ReadFailed(io)), DecisionCancelled)] + last;
    RecordsOnlyForwardAll([SuccessRecord]);
    assert Forwarded(Lines([SuccessRecord])) == [ProgressMsg(SuccessStatus, 100, 100)];
    ReadDeadlineRetriedSilently(Req(model), false, "", Lines([SuccessRecord]), io, DecisionCancelled, last);
    assert BeforeInterrupt([]) == [] && Forwarded([]) == [];
    CleanEndAfterSuccessFinishes(Req(model), true, true, "", [], DecisionCancelled, []);
    assert last == [last[0]] + [];
  }
}

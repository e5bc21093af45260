/** The terminal UI's model (ui/ui.go): its initial state, the record and
    integer parts of `Model.Update`, and the unit loop of `formatBytes`.
    Rendering, floats and the list component's own key handling are not part
    of this model; the list's cursor movement is a parameter. */
module Ui {
  import opened GoBase
  import opened Client
  import ClientProperties

  const Padding: int := 2
  const MaxWidth: int := 80
  const ListHeight: int := 14

  const ConnectingStatus: string := "Connecting to Ollama..."

  /** The part of the bubbles list the program relies on: its items, size and
      the index of the selected item. */
  datatype ListState = ListState(items: seq<string>, width: int, height: int, cursor: nat)

  /** The list's `SelectedItem()`: nothing when the cursor is past the items. */
  function SelectedItem(l: ListState): (o: Option<string>)
    ensures o.Some? <==> l.cursor < |l.items|
    ensures o.Some? ==> o.value in l.items
  {
    if l.cursor < |l.items| then Some(l.items[l.cursor]) else None
  }

  /** The fields of `ui.Model` that are not floats or channels. `progressWidth`
      is `None` while the progress bar keeps the width the library gives it. */
  datatype UiModel = UiModel(
    progressWidth: Option<int>,
    status: string,
    modelToPull: string,
    host: string,
    list: ListState,
    quitting: bool,
    selectedChoice: string,
    showList: bool,
    totalBytes: int64,
    lastCompletedBytes: int64,
    bytesAtLastTick: int64)

  /** The messages `Update` distinguishes; `Key` carries `msg.String()`. */
  datatype UiMsg =
    | WindowSize(width: int, height: int)
    | Key(key: string)
    | FromClient(msg: Msg)
    | Frame
    | Tick
    | OtherMsg

  /** The command `Update` returns. */
  datatype Cmd = NoCmd | QuitCmd | TickCmd | FrameCmd | ListCmd

  /** The new model, the choice sent on `userChoiceCh` if any, whether
      `quitUICh` was closed, and the command. */
  datatype UpdateResult = UpdateResult(model: UiModel, sent: Option<string>, closedQuit: bool, cmd: Cmd)

  /** What the list component makes of a key: its new state, and whether the
      command it returns is `tea.Quit` (its quit binding, "esc" once "q" has
      been taken, does that). */
  datatype ListReply = ListReply(list: ListState, quits: bool)

  /** The list component's handling of a key other than "q", "ctrl+c" or an
      accepted "enter": bubbles code, so it is given by the caller. */
  type Navigate = (ListState, string) -> ListReply

  /** Lines 84-110: the three menu items, the "Connecting" status, a list of
      width `maxWidth` and height `listHeight`, the list hidden, no choice. */
  function NewModel(modelToPull: string, host: string): (m: UiModel)
    ensures m.list.items == [ContinueOnce, ContinueAll, QuitChoice]
    ensures !m.showList && !m.quitting && m.selectedChoice == ""
    ensures m.totalBytes == 0 && m.lastCompletedBytes == 0 && m.bytesAtLastTick == 0
  {
    UiModel(None, ConnectingStatus, modelToPull, host,
            ListState([ContinueOnce, ContinueAll, QuitChoice], MaxWidth, ListHeight, 0),
            false, "", false, 0, 0, 0)
  }

  /** Lines 120-123: the window width less twice the padding and four more,
      at most `maxWidth`. */
  function ProgressWidth(windowWidth: int): (w: int)
    ensures w <= MaxWidth
    ensures w == MaxWidth || w == windowWidth - Padding * 2 - 4
    ensures windowWidth - Padding * 2 - 4 <= MaxWidth ==> w == windowWidth - Padding * 2 - 4
  {
    var w := windowWidth - Padding * 2 - 4;
    if w > MaxWidth then MaxWidth else w
  }

  /** The three ways the UI ends the program: it records the choice, closes
      `quitUICh`, sends the choice and returns `tea.Quit`. */
  function Finish(m: UiModel, choice: string): (r: UpdateResult)
    ensures r.model.selectedChoice == choice && r.sent == Some(choice)
    ensures r.closedQuit && r.cmd == QuitCmd
  {
    UpdateResult(m.(selectedChoice := choice), Some(choice), true, QuitCmd)
  }

  function Unchanged(m: UiModel, cmd: Cmd): (r: UpdateResult) {
    UpdateResult(m, None, false, cmd)
  }

  /** `Model.Update` (lines 117-202). The UI can also end through the list's
      own quit command, and then it neither sends a choice nor closes
      `quitUICh`. */
  function Update(m: UiModel, msg: UiMsg, navigate: Navigate): (r: UpdateResult)
    ensures r.sent.Some? <==> r.closedQuit
    ensures r.closedQuit ==> r.cmd == QuitCmd
    ensures r.cmd == QuitCmd && !r.closedQuit <==>
      msg.Key? && m.showList && msg.key !in {"q", "ctrl+c", "enter"} && navigate(m.list, msg.key).quits
    ensures r.sent.Some? ==> r.sent.value == r.model.selectedChoice
    ensures r.sent.Some? ==> msg.Key? || (msg.FromClient? && msg.msg.ErrorMsg?)
    ensures r.model.modelToPull == m.modelToPull && r.model.host == m.host
    ensures r.model.list.items == m.list.items
    ensures !r.closedQuit ==> r.model.selectedChoice == m.selectedChoice
  {
    match msg
    case WindowSize(width, _) =>
      Unchanged(m.(progressWidth := Some(ProgressWidth(width)), list := m.list.(width := width)), NoCmd)
    case Key(key) =>
      if key == "q" || key == "ctrl+c" then
        Finish(m.(quitting := true), QuitChoice)
      else if key == "enter" && m.showList then
        var item := SelectedItem(m.list);
        Finish(m, if item.Some? then item.value else m.selectedChoice)
      else if m.showList then
        var reply := navigate(m.list, key);
        Unchanged(m.(list := reply.list.(items := m.list.items)), if reply.quits then QuitCmd else ListCmd)
      else
        Unchanged(m, NoCmd)
    case FromClient(cm) =>
      (match cm
       case ProgressMsg(status, completed, total) =>
         Unchanged(m.(status := status,
                      totalBytes := if total > 0 then total else m.totalBytes,
                      lastCompletedBytes := completed), NoCmd)
       case TimeoutMsg =>
         Unchanged(m.(showList := true), NoCmd)
       case ErrorMsg(err) =>
         Finish(m.(status := "Error: " + err), QuitChoice))
    case Frame => Unchanged(m, FrameCmd)
    case Tick => Unchanged(m.(bytesAtLastTick := m.lastCompletedBytes), TickCmd)
    case OtherMsg => Unchanged(m, NoCmd)
  }

  // ---------------------------------------------------------------------------
  // Properties of Update
  // ---------------------------------------------------------------------------

  /** A resize sets the progress width to Width - 2*padding - 4 clamped to
      `maxWidth`, the list width to Width, and touches nothing else (lines 119-125). */
  lemma ResizeSetsWidths(m: UiModel, width: int, height: int, navigate: Navigate)
    ensures var r := Update(m, WindowSize(width, height), navigate);
      && r.model.progressWidth.Some?
      && r.model.progressWidth.value <= MaxWidth
      && (width - 8 <= MaxWidth ==> r.model.progressWidth.value == width - 8)
      && (width - 8 > MaxWidth ==> r.model.progressWidth.value == MaxWidth)
      && r.model.list == m.list.(width := width)
      && r.model.(progressWidth := m.progressWidth, list := m.list) == m
      && r.sent.None? && r.cmd == NoCmd
  {
  }

  /** A ProgressMsg always takes over the status and the completed count; the
      total is taken only when positive (lines 153-163). */
  lemma ProgressOverwrites(m: UiModel, status: string, completed: int64, total: int64, navigate: Navigate)
    ensures var r := Update(m, FromClient(ProgressMsg(status, completed, total)), navigate);
      && r.model.status == status
      && r.model.lastCompletedBytes == completed
      && (total > 0 ==> r.model.totalBytes == total)
      && (total <= 0 ==> r.model.totalBytes == m.totalBytes)
      && r.model.(status := m.status, totalBytes := m.totalBytes, lastCompletedBytes := m.lastCompletedBytes) == m
      && r.sent.None? && r.cmd == NoCmd
  {
  }

  /** A TimeoutMsg shows the list and changes nothing else (lines 165-167). */
  lemma TimeoutShowsList(m: UiModel, navigate: Navigate)
    ensures Update(m, FromClient(TimeoutMsg), navigate) == UpdateResult(m.(showList := true), None, false, NoCmd)
  {
  }

  /** "q" and "ctrl+c" quit with the choice "Quit", whatever is shown (lines 129-134). */
  lemma QuitKeysChooseQuit(m: UiModel, key: string, navigate: Navigate)
    requires key == "q" || key == "ctrl+c"
    ensures var r := Update(m, Key(key), navigate);
      r.model.quitting && r.model.selectedChoice == QuitChoice && r.sent == Some(QuitChoice) && r.closedQuit && r.cmd == QuitCmd
  {
  }

  /** An ErrorMsg shows "Error: <text>" and quits with the choice "Quit";
      unlike the quit keys it leaves `quitting` as it was (lines 169-174). */
  lemma ErrorChoosesQuit(m: UiModel, err: string, navigate: Navigate)
    ensures var r := Update(m, FromClient(ErrorMsg(err)), navigate);
      && r.model.status == "Error: " + err && HasPrefix(r.model.status, "Error:")
      && r.model.selectedChoice == QuitChoice && r.sent == Some(QuitChoice)
      && r.model.quitting == m.quitting && r.cmd == QuitCmd
  {
  }

  /** "enter" while the list is shown sends the selected item, or the choice
      already held when there is none; with the list hidden it does nothing
      (lines 136-151). */
  lemma EnterSendsSelection(m: UiModel, navigate: Navigate)
    ensures var r := Update(m, Key("enter"), navigate);
      && (m.showList && m.list.cursor < |m.list.items| ==> r.sent == Some(m.list.items[m.list.cursor]))
      && (m.showList && m.list.cursor >= |m.list.items| ==> r.sent == Some(m.selectedChoice))
      && (!m.showList ==> r == UpdateResult(m, None, false, NoCmd))
  {
  }

  /** A key the list turns into `tea.Quit` ends the UI without a choice:
      nothing is sent on `userChoiceCh`, `quitUICh` stays open and the choice
      is the one held before (lines 147-151). */
  lemma ListQuitSendsNothing(m: UiModel, key: string, navigate: Navigate)
    requires m.showList && key != "q" && key != "ctrl+c" && key != "enter"
    requires navigate(m.list, key).quits
    ensures var r := Update(m, Key(key), navigate);
      && r.cmd == QuitCmd && r.sent.None? && !r.closedQuit
      && r.model.selectedChoice == m.selectedChoice
      && r.model.list == navigate(m.list, key).list.(items := m.list.items)
  {
  }

  // ---------------------------------------------------------------------------
  // The menu and the client's switch
  // ---------------------------------------------------------------------------

  /** The menu offers, in order, exactly the answers the client's post-timeout
      switch acts on: after a TimeoutMsg the first item retries as before, the
      second retries in continue mode and the third ends the session (lines
      85-89 with client/client.go:178-189). */
  lemma MenuMatchesClient(model: string, host: string, finished: bool, io: IoError, rest: seq<Iteration>)
    requires io.kind == IoDeadline || io.kind == IoNetTimeout
    requires !Contains(io.text, UserQuitText)
    ensures var items := NewModel(model, host).list.items;
      && |items| == 3
      && var req := PullRequest(model, true);
      && Loop(req, false, finished, [Iteration(Idle, TransportFailed(io), Chose(items[0]))] + rest)
         == ClientProperties.Continue(req, [TimeoutMsg], false, finished, rest)
      && Loop(req, false, finished, [Iteration(Idle, TransportFailed(io), Chose(items[1]))] + rest)
         == ClientProperties.Continue(req, [TimeoutMsg], true, finished, rest)
      && Loop(req, false, finished, [Iteration(Idle, TransportFailed(io), Chose(items[2]))] + rest)
         == Session([TimeoutMsg], [req], false, Some(Declined))
  {
    var req := PullRequest(model, true);
    ClientProperties.TimeoutAsksUser(req, finished, io, Chose(ContinueOnce), rest);
    ClientProperties.TimeoutAsksUser(req, finished, io, Chose(ContinueAll), rest);
    ClientProperties.TimeoutAsksUser(req, finished, io, Chose(QuitChoice), rest);
  }

  // ---------------------------------------------------------------------------
  // A run of client messages
  // ---------------------------------------------------------------------------

  /** The UI model after the client messages `msgs` in order. */
  function Feed(m: UiModel, msgs: seq<Msg>, navigate: Navigate): (final: UiModel)
    decreases |msgs|
  {
    if msgs == [] then m else Update(Feed(m, msgs[..|msgs| - 1], navigate), FromClient(msgs[|msgs| - 1]), navigate).model
  }

  /** The reference for the total: the last positive Total among the
      messages, or `init` when there is none. */
  function LastPositiveTotal(init: int64, msgs: seq<Msg>): (total: int64)
    decreases |msgs|
  {
    if msgs == [] then init
    else var last := msgs[|msgs| - 1];
      if last.ProgressMsg? && last.total > 0 then last.total else LastPositiveTotal(init, msgs[..|msgs| - 1])
  }

  predicate OnlyProgress(msgs: seq<Msg>) {
    forall i :: 0 <= i < |msgs| ==> msgs[i].ProgressMsg?
  }

  /** A run of ProgressMsgs leaves the total at the last positive Total seen,
      the status and completed count at the last message's, and never makes a
      choice: after a download that only reports progress the choice is still
      the empty one it started with (lines 153-163). */
  lemma {:induction false} ProgressRun(m: UiModel, msgs: seq<Msg>, navigate: Navigate)
    requires OnlyProgress(msgs)
    ensures var f := Feed(m, msgs, navigate);
      && f.totalBytes == LastPositiveTotal(m.totalBytes, msgs)
      && f.selectedChoice == m.selectedChoice && f.showList == m.showList
      && (|msgs| > 0 ==> f.status == msgs[|msgs| - 1].status && f.lastCompletedBytes == msgs[|msgs| - 1].completed)
    decreases |msgs|
  {
    if msgs != [] {
      var init := msgs[..|msgs| - 1];
      assert OnlyProgress(init) by {
        forall i | 0 <= i < |init| ensures init[i].ProgressMsg? {
          assert init[i] == msgs[i];
        }
      }
      ProgressRun(m, init, navigate);
      var last := msgs[|msgs| - 1];
      assert last.ProgressMsg?;
      ProgressOverwrites(Feed(m, init, navigate), last.status, last.completed, last.total, navigate);
    }
  }

  // ---------------------------------------------------------------------------
  // formatBytes
  // ---------------------------------------------------------------------------

  function Pow1024(k: nat): (p: nat)
    ensures p >= 1
  {
    if k == 0 then 1 else 1024 * Pow1024(k - 1)
  }

  lemma {:induction false} Pow1024Grows(j: nat, k: nat)
    requires j <= k
    ensures Pow1024(j) <= Pow1024(k)
    decreases k
  {
    if j < k {
      Pow1024Grows(j, k - 1);
    }
  }

  /** From the seventh on, powers of 1024 exceed every int64. */
  lemma LargePowers(e: nat)
    ensures e >= 7 ==> Pow1024(e) >= 0x40_0000_0000_0000_0000
  {
    assert Pow1024(1) == 0x400;
    assert Pow1024(2) == 0x10_0000;
    assert Pow1024(3) == 0x4000_0000;
    assert Pow1024(4) == 0x100_0000_0000;
    assert Pow1024(5) == 0x4_0000_0000_0000;
    assert Pow1024(6) == 0x1000_0000_0000_0000;
    assert Pow1024(7) == 0x40_0000_0000_0000_0000;
    if e >= 7 {
      Pow1024Grows(7, e);
    }
  }

  lemma MulMono(a: int, x: int, y: int)
    requires a >= 0 && x <= y
    ensures a * x <= a * y
  {
    assert a * y - a * x == a * (y - x);
  }

  lemma MulLess(d: int, x: int, y: int)
    requires d > 0
    ensures x < y ==> d * x + d <= d * y
  {
    if x < y {
      MulMono(d, x + 1, y);
      assert d * (x + 1) == d * x + d;
    }
  }

  /** The quotient is the only q with b == d * q + r and 0 <= r < d. */
  lemma DivUnique(b: int, d: int, q: int, r: int)
    requires d > 0 && 0 <= r < d && b == d * q + r
    ensures b / d == q
  {
    MulLess(d, b / d, q);
    MulLess(d, q, b / d);
  }

  /** Taking two quotients in turn is taking the quotient by their product. */
  lemma DivDiv(b: int, d: int, k: int)
    requires b >= 0 && d > 0 && k > 0
    ensures b / (d * k) == (b / d) / k
  {
    var q := b / d;
    var r := b % d;
    var q2 := q / k;
    var r2 := q % k;
    assert b == d * q + r;
    assert q == k * q2 + r2;
    assert d * q == (d * k) * q2 + d * r2 by {
      assert d * (k * q2 + r2) == d * (k * q2) + d * r2;
      assert d * (k * q2) == (d * k) * q2;
    }
    MulMono(d, r2, k - 1);
    assert d * (k - 1) == d * k - d;
    DivUnique(b, d * k, q2, d * r2 + r);
  }

  /** How `formatBytes` shows a count: as it is with " B", or scaled by `div`
      under one of the unit letters. */
  datatype ByteDisplay = Raw(count: int64, text: string) | Scaled(div: int64, exp: nat, unit: char)

  const Units: string := "KMGTPE"

  /** The "%d B" rendering; the "%.1f" rendering of the scaled case is not
      part of this model. */
  function RenderRaw(count: int64): (s: string)
    ensures s == FormatInt(count as int) + " B"
    ensures |s| >= 3 && s[|s| - 2..] == " B"
    ensures count >= 0 ==> AllDigits(s[..|s| - 2]) && ParseDecimal(s[..|s| - 2]) == count as int
    ensures count < 0 ==> s[0] == '-' && AllDigits(s[1..|s| - 2]) && ParseDecimal(s[1..|s| - 2]) == -(count as int)
  {
    DecimalRoundTrip(if count < 0 then -(count as int) else count as int);
    var s := FormatInt(count as int) + " B";
    assert s[..|s| - 2] == FormatInt(count as int);
    assert count < 0 ==> s[1..|s| - 2] == FormatInt(count as int)[1..];
    s
  }

  /** `formatBytes` (lines 205-216): counts below 1024, negative ones
      included, are shown raw; otherwise `div` is the power of 1024 that
      leaves a quotient from 1 to 1023, and for every int64 that power is at
      most 1024^6, so `exp` indexes "KMGTPE" and `div` never overflows. */
  method FormatBytes(b: int64) returns (d: ByteDisplay)
    ensures b < 1024 <==> d.Raw?
    ensures d.Raw? ==> d.count == b && d.text == RenderRaw(b)
    ensures d.Scaled? ==> && d.exp <= 5
                          && d.div as int == Pow1024(d.exp + 1)
                          && 1 <= b as int / d.div as int < 1024
                          && d.unit == Units[d.exp]
  {
    if b < 1024 {
      return Raw(b, RenderRaw(b));
    }
    var div: int64 := 1024;
    var exp: nat := 0;
    var n: int64 := b / 1024;
    while n >= 1024
      invariant div as int == Pow1024(exp + 1)
      invariant n as int == b as int / div as int
      invariant n >= 1
      invariant exp <= 5
      decreases n
    {
      DivDiv(b as int, div as int, 1024);
      assert div as int * 1024 <= b as int;
      LargePowers(exp + 2);
      div := div * 1024;
      exp := exp + 1;
      n := n / 1024;
    }
    return Scaled(div, exp, Units[exp]);
  }
}

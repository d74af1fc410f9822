/**
 * The events of one turn, and what a reader of the channel sees in them.
 *
 * `Seen` reads a log the way its consumer does, one event after another. A log is sound when no
 * event in it is out of place; the lemmas say what soundness means for the log itself.
 */
module TurnEvents {
  import opened Common

  datatype OutputStream = Stdout | Stderr

  datatype ToolStatus = Succeeded | Failed | TimedOut

  /** A piece of a tool's output, and the stream it came on. */
  type Output = (OutputStream, string)

  datatype Usage = Usage(inputTokens: nat, outputTokens: nat)

  datatype AgentEvent =
    | StepStarted(step: nat)
    | AssistantDelta(text: string)
    | AssistantMessage(text: string)
    | ToolCall(callId: string, name: string, arguments: string, seqNo: nat)
    | ToolOutputDelta(callId: string, stream: OutputStream, text: string)
    | ToolResult(callId: string, exitCode: Option<int>, bytes: nat, durationMs: nat, status: ToolStatus)
    | GitPushed(branch: string, sha: string)
    | Heartbeat
    | TurnCompleted(usage: Usage, steps: nat, finalMessage: string, byLimit: bool)
    | TurnCancelled
    | TurnFailed(code: string, message: string)
  {
    predicate Terminal() {
      TurnCompleted? || TurnCancelled? || TurnFailed?
    }
  }

  /**
   * An event handed to the writer: whether its line was accepted, whether the abort signal was up, and
   * what the clock showed if it was read right before.
   */
  datatype Entry = Entry(event: AgentEvent, delivered: bool, aborted: bool, reading: Option<int>)

  /** A call that has finished: its two events, and the output that came between them. */
  datatype Finished = Finished(call: AgentEvent, result: AgentEvent, output: seq<Output>)

  /**
   * What has been seen so far: how many steps and when they began, how many calls, the call whose
   * result is still to come and its output so far, the calls that have finished, the text streamed and
   * how many pieces of it were lost, the messages, the pushes, the event that ended the turn and whether
   * it was delivered, and whether any other line the loop waited for was lost.
   */
  datatype Watch = Watch(sound: bool, steps: nat, times: seq<Option<int>>, calls: nat, running: Option<AgentEvent>,
                         output: seq<Output>, finished: seq<Finished>, spoken: string, muted: nat,
                         messages: seq<string>, pushes: seq<(string, string)>, ended: Option<AgentEvent>,
                         reported: bool, lost: bool)

  const UNSEEN := Watch(true, 0, [], 0, None, [], [], "", 0, [], [], None, false, false)

  predicate RunsAs(running: Option<AgentEvent>, callId: string) {
    running.Some? && running.value.ToolCall? && running.value.callId == callId
  }

  /** Heartbeats and tool output are handed over without waiting for their line. */
  predicate Detached(event: AgentEvent) {
    event.Heartbeat? || event.ToolOutputDelta?
  }

  /** A line whose loss raises; that of a piece of text ends the provider call it belongs to instead. */
  predicate Awaited(event: AgentEvent) {
    !Detached(event) && !event.AssistantDelta?
  }

  /** Whether an event may come next, in a turn that has not ended; none begins a step or a call once the signal is up. */
  predicate InPlace(w: Watch, entry: Entry) {
    match entry.event
    case Heartbeat => true
    case ToolOutputDelta(callId, _, _) => RunsAs(w.running, callId)
    case ToolResult(callId, _, _, _, _) => RunsAs(w.running, callId)
    case StepStarted(step) => w.running.None? && step == w.steps + 1 && !entry.aborted
    case ToolCall(_, _, _, seqNo) => w.running.None? && seqNo == w.calls + 1 && !entry.aborted
    case _ => w.running.None?
  }

  /** What an event adds to what has been seen. */
  function Note(w: Watch, event: AgentEvent): Watch {
    match event
    case StepStarted(step) => w.(steps := step)
    case AssistantDelta(text) => w.(spoken := w.spoken + text)
    case AssistantMessage(text) => w.(messages := w.messages + [text])
    case ToolCall(_, _, _, seqNo) => w.(calls := seqNo, running := Some(event), output := [])
    case ToolOutputDelta(_, stream, text) => w.(output := w.output + [(stream, text)])
    case ToolResult(_, _, _, _, _) =>
      if w.running.None? then w
      else w.(running := None, finished := w.finished + [Finished(w.running.value, event, w.output)])
    case GitPushed(branch, sha) => w.(pushes := w.pushes + [(branch, sha)])
    case Heartbeat => w
    case _ => w.(ended := Some(event))
  }

  function Observe(w: Watch, entry: Entry): Watch {
    Note(w, entry.event).(
      sound := w.sound && w.ended.None? && InPlace(w, entry),
      times := if entry.event.StepStarted? then w.times + [entry.reading] else w.times,
      muted := w.muted + if entry.event.AssistantDelta? && !entry.delivered then 1 else 0,
      reported := w.reported || (entry.event.Terminal() && entry.delivered),
      lost := w.lost || (Awaited(entry.event) && !entry.delivered))
  }

  function Seen(log: seq<Entry>): Watch {
    if log == [] then UNSEEN else Observe(Seen(log[..|log| - 1]), log[|log| - 1])
  }

  lemma {:induction false} SeenNext(log: seq<Entry>, entry: Entry)
    ensures Seen(log + [entry]) == Observe(Seen(log), entry)
  {
    assert (log + [entry])[..|log|] == log;
  }

  // ---------------------------------------------------------------- what soundness means

  lemma {:induction false} SoundBefore(log: seq<Entry>, n: nat)
    requires Seen(log).sound && n <= |log|
    ensures Seen(log[..n]).sound
    ensures n < |log| ==> Seen(log[..n]).ended.None?
    decreases |log|
  {
    if n < |log| {
      var shorter := log[..|log| - 1];
      if n < |shorter| {
        SoundBefore(shorter, n);
        assert shorter[..n] == log[..n];
      } else {
        assert log[..n] == shorter;
      }
    } else {
      assert log[..n] == log;
    }
  }

  lemma EndStep(w: Watch, entry: Entry)
    requires Observe(w, entry).sound
    ensures w.ended.None?
    ensures Observe(w, entry).ended == if entry.event.Terminal() then Some(entry.event) else None
    ensures Observe(w, entry).reported == (w.reported || (entry.event.Terminal() && entry.delivered))
  {
  }

  /** A terminal event is the last one, and there is a terminal event exactly when the turn is seen to end. */
  lemma {:induction false} OneEndAndLast(log: seq<Entry>)
    requires Seen(log).sound
    ensures forall i :: 0 <= i < |log| - 1 ==> !log[i].event.Terminal()
    ensures Seen(log).ended == if log != [] && log[|log| - 1].event.Terminal() then Some(log[|log| - 1].event) else None
    ensures Seen(log).reported <==> exists i :: 0 <= i < |log| && log[i].event.Terminal() && log[i].delivered
  {
    if log != [] {
      var shorter := log[..|log| - 1];
      SoundBefore(log, |log| - 1);
      OneEndAndLast(shorter);
      EndStep(Seen(shorter), log[|log| - 1]);
      assert forall i :: 0 <= i < |shorter| ==> shorter[i] == log[i];
    }
  }

  function StepOf(entry: Entry): seq<int> {
    if entry.event.StepStarted? then [entry.event.step] else []
  }

  function StepNumbers(log: seq<Entry>): seq<int> {
    if log == [] then [] else StepNumbers(log[..|log| - 1]) + StepOf(log[|log| - 1])
  }

  function CallOf(entry: Entry): seq<int> {
    if entry.event.ToolCall? then [entry.event.seqNo] else []
  }

  function CallNumbers(log: seq<Entry>): seq<int> {
    if log == [] then [] else CallNumbers(log[..|log| - 1]) + CallOf(log[|log| - 1])
  }

  function CountingUp(n: nat): seq<int> {
    if n == 0 then [] else CountingUp(n - 1) + [n]
  }

  lemma NumbersStep(w: Watch, entry: Entry)
    requires Observe(w, entry).sound
    ensures w.sound
    ensures Observe(w, entry).steps == w.steps + |StepOf(entry)| && (StepOf(entry) != [] ==> StepOf(entry) == [w.steps + 1])
    ensures Observe(w, entry).calls == w.calls + |CallOf(entry)| && (CallOf(entry) != [] ==> CallOf(entry) == [w.calls + 1])
  {
  }

  /** Steps are numbered 1, 2, 3, …, and so are the calls of known tools. */
  lemma {:induction false} NumbersCountUp(log: seq<Entry>)
    requires Seen(log).sound
    ensures StepNumbers(log) == CountingUp(Seen(log).steps)
    ensures CallNumbers(log) == CountingUp(Seen(log).calls)
  {
    if log != [] {
      var n := |log| - 1;
      NumbersStep(Seen(log[..n]), log[n]);
      NumbersCountUp(log[..n]);
    }
  }

  function TextOf(entry: Entry): seq<string> {
    if entry.event.AssistantMessage? then [entry.event.text] else []
  }

  function MessageTexts(log: seq<Entry>): seq<string> {
    if log == [] then [] else MessageTexts(log[..|log| - 1]) + TextOf(log[|log| - 1])
  }

  lemma MessagesStep(w: Watch, entry: Entry)
    ensures Observe(w, entry).messages == w.messages + TextOf(entry)
  {
    assert w.messages + [] == w.messages;
  }

  lemma {:induction false} MessagesInOrder(log: seq<Entry>)
    ensures Seen(log).messages == MessageTexts(log)
  {
    if log != [] {
      var n := |log| - 1;
      MessagesStep(Seen(log[..n]), log[n]);
      MessagesInOrder(log[..n]);
    }
  }

  /** No step and no call begins once the signal is up. */
  lemma {:induction false} NoneBeginsAborted(log: seq<Entry>, i: nat)
    requires Seen(log).sound && i < |log| && (log[i].event.StepStarted? || log[i].event.ToolCall?)
    ensures !log[i].aborted
  {
    SoundBefore(log, i + 1);
    SeenNext(log[..i], log[i]);
    assert log[..i + 1] == log[..i] + [log[i]];
  }

  /** When each step began, as the loop read the clock. */
  function StepTimes(log: seq<Entry>): seq<Option<int>> {
    if log == [] then []
    else
      var last := log[|log| - 1];
      StepTimes(log[..|log| - 1]) + if last.event.StepStarted? then [last.reading] else []
  }

  lemma {:induction false} TimesAreRead(log: seq<Entry>)
    ensures Seen(log).times == StepTimes(log)
  {
    if log != [] {
      TimesAreRead(log[..|log| - 1]);
      assert Seen(log[..|log| - 1]).times + [] == Seen(log[..|log| - 1]).times;
    }
  }

  lemma {:induction false} StepIsTimed(log: seq<Entry>, i: nat)
    requires i < |log| && log[i].event.StepStarted?
    ensures log[i].reading in StepTimes(log)
  {
    if i < |log| - 1 {
      StepIsTimed(log[..|log| - 1], i);
    }
  }

  /** A line that is waited for and was not accepted is seen as lost. */
  lemma {:induction false} LostLines(log: seq<Entry>)
    ensures Seen(log).lost <==> exists i :: 0 <= i < |log| && Awaited(log[i].event) && !log[i].delivered
  {
    if log != [] {
      var n := |log| - 1;
      LostLines(log[..n]);
      assert forall i :: 0 <= i < n ==> log[..n][i] == log[i];
    }
  }

  // ---------------------------------------------------------------- calls and their output

  /** From i on, nothing but output of the call started at i, and heartbeats, up to k. */
  ghost predicate OnlyItsOutput(log: seq<Entry>, i: int, k: int) {
    && 0 <= i < k <= |log| && log[i].event.ToolCall?
    && forall j :: i < j < k ==> IsOutputOf(log[j].event, log[i].event.callId) || log[j].event.Heartbeat?
  }

  predicate IsOutputOf(event: AgentEvent, callId: string) {
    event.ToolOutputDelta? && event.callId == callId
  }

  function OutputOf(entry: Entry): seq<Output> {
    if entry.event.ToolOutputDelta? then [(entry.event.stream, entry.event.text)] else []
  }

  /** The output in a stretch of a log, in order. */
  function Outputs(log: seq<Entry>): seq<Output> {
    if log == [] then [] else Outputs(log[..|log| - 1]) + OutputOf(log[|log| - 1])
  }

  /** The events that can be seen while a call runs. */
  lemma RunningStep(w: Watch, entry: Entry)
    requires Observe(w, entry).sound && Observe(w, entry).running.Some? && !entry.event.ToolCall?
    ensures w.sound && w.running == Observe(w, entry).running
    ensures w.running.value.ToolCall? ==> IsOutputOf(entry.event, w.running.value.callId) || entry.event.Heartbeat?
    ensures Observe(w, entry).output == w.output + OutputOf(entry)
  {
    assert w.output + [] == w.output;
  }

  lemma OutputGrows(log: seq<Entry>, i: int)
    requires log != [] && OnlyItsOutput(log[..|log| - 1], i, |log| - 1)
    requires IsOutputOf(log[|log| - 1].event, log[i].event.callId) || log[|log| - 1].event.Heartbeat?
    ensures OnlyItsOutput(log, i, |log|)
  {
    var shorter := log[..|log| - 1];
    assert forall j :: 0 <= j < |shorter| ==> shorter[j] == log[j];
  }

  /** While a call runs the log since its start holds nothing but its output. */
  lemma {:induction false} RunningSince(log: seq<Entry>) returns (i: int)
    requires Seen(log).sound && Seen(log).running.Some?
    ensures OnlyItsOutput(log, i, |log|) && log[i].event == Seen(log).running.value
    ensures Seen(log).output == Outputs(log[i + 1..])
  {
    var n := |log| - 1;
    if log[n].event.ToolCall? {
      i := n;
    } else {
      RunningStep(Seen(log[..n]), log[n]);
      i := RunningSince(log[..n]);
      OutputGrows(log, i);
      var since := log[i + 1..];
      assert since[..|since| - 1] == log[..n][i + 1..];
    }
  }

  /** Output appears only inside its own call. */
  lemma {:induction false} OutputInsideItsCall(log: seq<Entry>, k: nat)
    requires Seen(log).sound && k < |log| && log[k].event.ToolOutputDelta?
    ensures exists i :: OnlyItsOutput(log, i, k) && log[i].event.callId == log[k].event.callId
  {
    SoundBefore(log, k);
    SoundBefore(log, k + 1);
    SeenNext(log[..k], log[k]);
    assert log[..k + 1] == log[..k] + [log[k]];
    var i := RunningSince(log[..k]);
    SameBefore(log, i, k);
  }

  /** The result at k closes the call at i, and what is kept of the two holds the output between. */
  ghost predicate Closes(log: seq<Entry>, i: int, k: int) {
    && 0 <= k < |log| && OnlyItsOutput(log, i, k)
    && log[k].event.ToolResult? && log[i].event.callId == log[k].event.callId
    && Seen(log[..k + 1]).finished
       == Seen(log[..k]).finished + [Finished(log[i].event, log[k].event, Outputs(log[i + 1..k]))]
  }

  /** A result closes its own call, with nothing but that call's output between. */
  lemma {:induction false} ResultClosesItsCall(log: seq<Entry>, k: nat)
    requires Seen(log).sound && k < |log| && log[k].event.ToolResult?
    ensures exists i :: Closes(log, i, k)
  {
    SoundBefore(log, k);
    SoundBefore(log, k + 1);
    SeenNext(log[..k], log[k]);
    assert log[..k + 1] == log[..k] + [log[k]];
    var i := RunningSince(log[..k]);
    SameBefore(log, i, k);
    assert log[..k][i + 1..] == log[i + 1..k];
    assert Closes(log, i, k);
  }

  lemma {:induction false} SameBefore(log: seq<Entry>, i: int, k: nat)
    requires k <= |log| && OnlyItsOutput(log[..k], i, k)
    ensures OnlyItsOutput(log, i, k) && log[..k][i] == log[i]
  {
    assert forall j :: 0 <= j < k ==> log[..k][j] == log[j];
  }
}

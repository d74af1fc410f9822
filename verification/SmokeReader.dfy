/**
 * The smoke check's reader: it records what a turn's event stream says and stops at the first event
 * that ends the turn, or when the server says the replay cache is gone.
 */
module SmokeReader {
  import opened Common
  import opened TurnEvents
  import opened EventStream

  datatype StreamEvent =
    | TurnStarted(turnId: string)
    | PrepareProgress(message: string)
    | PrepareDone(headSha: string, branch: string)
    | FromTurn(event: AgentEvent)
    | ProtocolError(reason: string, length: nat)

  /** A recorded call; the path or command it is listed with is read off its arguments. */
  datatype CallRecord =
    CallRecord(seqNo: int, name: string, arguments: string, status: Option<ToolStatus>, exitCode: Option<int>, bytes: Option<nat>)

  datatype TerminalOutcome = Completed | TurnFailure | Cancelled

  /** What was learned from the events. */
  datatype Observation = Observation(
    steps: nat, assistantChars: nat, toolCalls: seq<CallRecord>, usage: Option<Usage>, finalMessage: string,
    pushed: Option<(string, string)>, terminal: Option<TerminalOutcome>, failure: Option<(string, string)>)

  /** The observation, and where in its list the call is that waits for the result of each id. */
  datatype Recorder = Recorder(observation: Observation, pending: map<string, nat>)

  /** A printed line: what event it is about, and the tool a result is attributed to. */
  datatype LogLine = About(event: StreamEvent) | ResultOf(event: StreamEvent, tool: string) | Unreadable(name: string)

  const NOTHING_SEEN := Recorder(Observation(0, 0, [], None, "", None, None, None), map[])

  function Max(a: nat, b: nat): nat {
    if a >= b then a else b
  }

  predicate Known(r: Recorder, callId: string) {
    callId in r.pending && r.pending[callId] < |r.observation.toolCalls|
  }

  function RecordTurn(r: Recorder, event: AgentEvent): Recorder {
    var o := r.observation;
    match event
    case StepStarted(step) => r.(observation := o.(steps := Max(o.steps, step)))
    case AssistantDelta(text) => r.(observation := o.(assistantChars := o.assistantChars + |text|))
    case ToolCall(callId, name, arguments, seqNo) =>
      Recorder(o.(toolCalls := o.toolCalls + [CallRecord(seqNo, name, arguments, None, None, None)]),
               r.pending[callId := |o.toolCalls|])
    case ToolResult(callId, exitCode, bytes, _, status) =>
      if !Known(r, callId) then r
      else
        var i := r.pending[callId];
        var record := o.toolCalls[i].(status := Some(status), exitCode := exitCode, bytes := Some(bytes));
        r.(observation := o.(toolCalls := o.toolCalls[i := record]))
    case GitPushed(branch, sha) => r.(observation := o.(pushed := Some((branch, sha))))
    case TurnCompleted(usage, steps, finalMessage, _) =>
      r.(observation := o.(terminal := Some(Completed), usage := Some(usage), steps := Max(o.steps, steps),
                           finalMessage := finalMessage))
    case TurnFailed(code, message) =>
      r.(observation := o.(terminal := Some(TurnFailure), failure := Some((code, message))))
    case TurnCancelled => r.(observation := o.(terminal := Some(Cancelled)))
    case _ => r
  }

  function Record(r: Recorder, event: StreamEvent): Recorder {
    if event.FromTurn? then RecordTurn(r, event.event) else r
  }

  /** The line an event prints; output, text as it streams and heartbeats are only counted. */
  function LineFor(r: Recorder, event: StreamEvent): Option<LogLine> {
    if !event.FromTurn? then Some(About(event))
    else
      match event.event
      case AssistantDelta(_) => None
      case ToolOutputDelta(_, _, _) => None
      case Heartbeat => None
      case ToolResult(callId, _, _, _, _) =>
        Some(ResultOf(event, if Known(r, callId) then r.observation.toolCalls[r.pending[callId]].name else "unknown"))
      case _ => Some(About(event))
  }

  // ---------------------------------------------------------------- what it sees of a turn

  function RecordAll(log: seq<Entry>): Recorder {
    if log == [] then NOTHING_SEEN else RecordTurn(RecordAll(log[..|log| - 1]), log[|log| - 1].event)
  }

  predicate Complete(record: CallRecord, f: Finished) {
    && f.call.ToolCall? && f.result.ToolResult?
    && record == CallRecord(f.call.seqNo, f.call.name, f.call.arguments, Some(f.result.status), f.result.exitCode,
                            Some(f.result.bytes))
  }

  /** The record of calls: the finished ones complete, and last the one that runs. */
  ghost predicate CallsMatch(calls: seq<CallRecord>, pending: map<string, nat>, w: Watch) {
    && |calls| == |w.finished| + (if w.running.Some? then 1 else 0)
    && (forall i :: 0 <= i < |w.finished| ==> Complete(calls[i], w.finished[i]))
    && (w.running.Some? ==>
          && w.running.value.ToolCall?
          && calls[|w.finished|]
             == CallRecord(w.running.value.seqNo, w.running.value.name, w.running.value.arguments, None, None, None)
          && w.running.value.callId in pending && pending[w.running.value.callId] == |w.finished|)
  }

  predicate EndMatches(o: Observation, ended: Option<AgentEvent>) {
    match ended
    case None => o.terminal.None?
    case Some(TurnCompleted(usage, _, finalMessage, _)) =>
      o.terminal == Some(Completed) && o.usage == Some(usage) && o.finalMessage == finalMessage
    case Some(TurnFailed(code, message)) => o.terminal == Some(TurnFailure) && o.failure == Some((code, message))
    case Some(_) => o.terminal == Some(Cancelled)
  }

  function StepsSeen(w: Watch): nat {
    if w.ended.Some? && w.ended.value.TurnCompleted? then Max(w.steps, w.ended.value.steps) else w.steps
  }

  function LastPush(pushes: seq<(string, string)>): Option<(string, string)> {
    if pushes == [] then None else Some(pushes[|pushes| - 1])
  }

  ghost predicate Matches(r: Recorder, w: Watch) {
    && CallsMatch(r.observation.toolCalls, r.pending, w)
    && r.observation.assistantChars == |w.spoken| && r.observation.steps == StepsSeen(w)
    && r.observation.pushed == LastPush(w.pushes)
    && EndMatches(r.observation, w.ended) && (w.ended.Some? ==> w.ended.value.Terminal())
  }

  lemma RecordCall(r: Recorder, w: Watch, entry: Entry)
    requires Matches(r, w) && Observe(w, entry).sound && (entry.event.ToolCall? || entry.event.ToolResult?)
    ensures Matches(RecordTurn(r, entry.event), Observe(w, entry))
  {
  }

  lemma RecordEnd(r: Recorder, w: Watch, entry: Entry)
    requires Matches(r, w) && Observe(w, entry).sound && entry.event.Terminal()
    ensures Matches(RecordTurn(r, entry.event), Observe(w, entry))
  {
  }

  lemma RecordOther(r: Recorder, w: Watch, entry: Entry)
    requires Matches(r, w) && Observe(w, entry).sound
    requires !entry.event.ToolCall? && !entry.event.ToolResult? && !entry.event.Terminal()
    ensures Matches(RecordTurn(r, entry.event), Observe(w, entry))
  {
    assert Observe(w, entry).running == w.running && Observe(w, entry).finished == w.finished;
    assert RecordTurn(r, entry.event).observation.toolCalls == r.observation.toolCalls;
  }

  /** Of a sound log the recorder learns its steps, every call with its result, the text's length, the last push and the end. */
  lemma {:induction false} RecorderSeesTheTurn(log: seq<Entry>)
    requires Seen(log).sound
    ensures Matches(RecordAll(log), Seen(log))
  {
    if log != [] {
      var n := |log| - 1;
      SoundBefore(log, n);
      RecorderSeesTheTurn(log[..n]);
      if log[n].event.ToolCall? || log[n].event.ToolResult? {
        RecordCall(RecordAll(log[..n]), Seen(log[..n]), log[n]);
      } else if log[n].event.Terminal() {
        RecordEnd(RecordAll(log[..n]), Seen(log[..n]), log[n]);
      } else {
        RecordOther(RecordAll(log[..n]), Seen(log[..n]), log[n]);
      }
    }
  }

  lemma NamesTheRunning(r: Recorder, w: Watch, event: AgentEvent)
    requires CallsMatch(r.observation.toolCalls, r.pending, w) && event.ToolResult? && RunsAs(w.running, event.callId)
    ensures LineFor(r, FromTurn(event)) == Some(ResultOf(FromTurn(event), w.running.value.name))
  {
  }

  /** The line a result prints names the tool of the call it closes. */
  lemma {:induction false} ResultNamesItsTool(log: seq<Entry>, k: nat)
    requires Seen(log).sound && k < |log| && log[k].event.ToolResult?
    ensures exists i ::
      && Closes(log, i, k)
      && LineFor(RecordAll(log[..k]), FromTurn(log[k].event)) == Some(ResultOf(FromTurn(log[k].event), log[i].event.name))
  {
    ResultClosesItsCall(log, k);
    var i :| Closes(log, i, k);
    SoundBefore(log, k);
    SoundBefore(log, k + 1);
    assert log[..k + 1] == log[..k] + [log[k]];
    SeenNext(log[..k], log[k]);
    RecorderSeesTheTurn(log[..k]);
    var w := Seen(log[..k]);
    assert (w.finished + [Finished(w.running.value, log[k].event, w.output)])[|w.finished|].call == log[i].event;
    NamesTheRunning(RecordAll(log[..k]), w, log[k].event);
  }

  // ---------------------------------------------------------------- reading a stream

  datatype Interruption = CacheExpired | EndedEarly | Dropped | PastDeadline

  /** What was recorded and printed so far, and the reason to stop once there is one. */
  datatype Reading = Reading(recorder: Recorder, printed: seq<LogLine>, stopped: Option<Option<Interruption>>)

  function Step(r: Reading, frame: DecodedFrame<StreamEvent>): Reading {
    match frame
    case Expired => r.(stopped := Some(Some(CacheExpired)))
    case Undecodable(name) => r.(printed := r.printed + [Unreadable(name)])
    case EventFrame(event) =>
      var line, recorder := LineFor(r.recorder, event), Record(r.recorder, event);
      Reading(recorder, if line.Some? then r.printed + [line.value] else r.printed,
              if recorder.observation.terminal.Some? then Some(None) else None)
  }

  function Feed(r: Reading, frames: seq<DecodedFrame<StreamEvent>>): Reading
    decreases |frames|
  {
    if frames == [] || r.stopped.Some? then r else Feed(Step(r, frames[0]), frames[1..])
  }

  lemma {:induction false} FeedInParts(r: Reading, a: seq<DecodedFrame<StreamEvent>>, b: seq<DecodedFrame<StreamEvent>>)
    ensures Feed(r, a + b) == Feed(Feed(r, a), b)
    decreases |a|
  {
    if a == [] {
      assert a + b == b;
    } else if r.stopped.None? {
      assert (a + b)[1..] == a[1..] + b;
      FeedInParts(Step(r, a[0]), a[1..], b);
    }
  }

  /** What ends the reading: the end of the turn, or the loss of the cache. */
  predicate Stops(frame: DecodedFrame<StreamEvent>) {
    frame.Expired? || (frame.EventFrame? && frame.event.FromTurn? && frame.event.event.Terminal())
  }

  ghost predicate Going(r: Reading) {
    r.stopped.None? && r.recorder.observation.terminal.None?
  }

  lemma StepGoesOn(r: Reading, frame: DecodedFrame<StreamEvent>)
    requires Going(r)
    ensures if Stops(frame) then Step(r, frame).stopped.Some? else Going(Step(r, frame))
  {
  }

  /** Reading stops with the first frame that ends it, and no later one is recorded or printed. */
  lemma {:induction false} StopsAtTheFirst(r: Reading, frames: seq<DecodedFrame<StreamEvent>>, k: nat)
    requires Going(r) && k < |frames| && Stops(frames[k]) && forall i :: 0 <= i < k ==> !Stops(frames[i])
    ensures Feed(r, frames) == Feed(r, frames[..k + 1]) && Feed(r, frames).stopped.Some?
    decreases k
  {
    StepGoesOn(r, frames[0]);
    assert frames[..k + 1][1..] == frames[1..][..k];
    if k > 0 {
      StopsAtTheFirst(Step(r, frames[0]), frames[1..], k - 1);
    }
  }

  lemma {:induction false} GoesOnWithout(r: Reading, frames: seq<DecodedFrame<StreamEvent>>)
    requires Going(r) && forall i :: 0 <= i < |frames| ==> !Stops(frames[i])
    ensures Going(Feed(r, frames))
    decreases |frames|
  {
    if frames != [] {
      StepGoesOn(r, frames[0]);
      GoesOnWithout(Step(r, frames[0]), frames[1..]);
    }
  }

  /** Text as it streams, output and heartbeats are counted, not printed. */
  predicate Quiet(frame: DecodedFrame<StreamEvent>) {
    && frame.EventFrame? && frame.event.FromTurn?
    && (frame.event.event.AssistantDelta? || frame.event.event.ToolOutputDelta? || frame.event.event.Heartbeat?)
  }

  /** The frames that are printed. */
  function Loud(frames: seq<DecodedFrame<StreamEvent>>): seq<DecodedFrame<StreamEvent>> {
    if frames == [] then [] else (if Quiet(frames[0]) then [] else [frames[0]]) + Loud(frames[1..])
  }

  predicate IsAbout(line: LogLine, frame: DecodedFrame<StreamEvent>) {
    match line
    case About(event) => frame == EventFrame(event) && !(event.FromTurn? && event.event.ToolResult?)
    case ResultOf(event, _) => frame == EventFrame(event) && event.FromTurn? && event.event.ToolResult?
    case Unreadable(name) => frame == Undecodable(name)
  }

  ghost predicate AllAbout(lines: seq<LogLine>, frames: seq<DecodedFrame<StreamEvent>>) {
    |lines| == |frames| && forall k :: 0 <= k < |lines| ==> IsAbout(lines[k], frames[k])
  }

  /** Until reading stops, each frame that is not quiet prints one line about it, in order. */
  lemma {:induction false} PrintsEachInOrder(r: Reading, frames: seq<DecodedFrame<StreamEvent>>) returns (lines: seq<LogLine>)
    requires Going(r) && forall i :: 0 <= i < |frames| ==> !Stops(frames[i])
    ensures Feed(r, frames).printed == r.printed + lines && AllAbout(lines, Loud(frames))
    decreases |frames|
  {
    lines := [];
    if frames != [] {
      StepGoesOn(r, frames[0]);
      var next := Step(r, frames[0]);
      var rest := PrintsEachInOrder(next, frames[1..]);
      var one := next.printed[|r.printed|..];
      lines := one + rest;
      assert next.printed == r.printed + one;
    }
  }

  class EventRecorder {
    var observation: Observation
    var pending: map<string, nat>

    function State(): Recorder
      reads this
    {
      Recorder(observation, pending)
    }

    constructor ()
      ensures State() == NOTHING_SEEN
    {
      observation, pending := NOTHING_SEEN.observation, NOTHING_SEEN.pending;
    }

    method OnToolCall(callId: string, name: string, arguments: string, seqNo: nat)
      modifies this
      ensures State() == RecordTurn(old(State()), ToolCall(callId, name, arguments, seqNo))
    {
      pending := pending[callId := |observation.toolCalls|];
      var record := CallRecord(seqNo, name, arguments, None, None, None);
      observation := observation.(toolCalls := observation.toolCalls + [record]);
    }

    method OnToolResult(callId: string, exitCode: Option<int>, bytes: nat, status: ToolStatus) returns (tool: string)
      modifies this
      ensures forall ms :: State() == RecordTurn(old(State()), ToolResult(callId, exitCode, bytes, ms, status))
      ensures tool == if old(Known(State(), callId)) then old(observation.toolCalls[pending[callId]].name) else "unknown"
    {
      if callId !in pending || pending[callId] >= |observation.toolCalls| {
        return "unknown";
      }
      var i := pending[callId];
      var record := observation.toolCalls[i].(status := Some(status), exitCode := exitCode, bytes := Some(bytes));
      observation := observation.(toolCalls := observation.toolCalls[i := record]);
      return record.name;
    }

    method OnCompleted(usage: Usage, steps: nat, finalMessage: string)
      modifies this
      ensures forall byLimit :: State() == RecordTurn(old(State()), TurnCompleted(usage, steps, finalMessage, byLimit))
    {
      observation := observation.(terminal := Some(Completed), usage := Some(usage),
                                  steps := Max(observation.steps, steps), finalMessage := finalMessage);
    }

    method RecordEvent(event: StreamEvent) returns (line: Option<LogLine>)
      modifies this
      ensures State() == Record(old(State()), event) && line == LineFor(old(State()), event)
    {
      line := Some(About(event));
      if !event.FromTurn? {
        return;
      }
      match event.event {
        case StepStarted(step) => observation := observation.(steps := Max(observation.steps, step));
        case AssistantDelta(text) =>
          observation := observation.(assistantChars := observation.assistantChars + |text|);
          line := None;
        case AssistantMessage(_) =>
        case ToolCall(callId, name, arguments, seqNo) => OnToolCall(callId, name, arguments, seqNo);
        case ToolOutputDelta(_, _, _) => line := None;
        case ToolResult(callId, exitCode, bytes, _, status) =>
          var tool := OnToolResult(callId, exitCode, bytes, status);
          line := Some(ResultOf(event, tool));
        case GitPushed(branch, sha) => observation := observation.(pushed := Some((branch, sha)));
        case Heartbeat => line := None;
        case TurnCompleted(usage, steps, finalMessage, _) => OnCompleted(usage, steps, finalMessage);
        case TurnFailed(code, message) =>
          observation := observation.(terminal := Some(TurnFailure), failure := Some((code, message)));
        case TurnCancelled => observation := observation.(terminal := Some(Cancelled));
      }
    }
  }

  class SmokeCheck {
    const recorder: EventRecorder
    var printed: seq<LogLine>

    constructor (recorder: EventRecorder)
      ensures this.recorder == recorder && printed == []
    {
      this.recorder, printed := recorder, [];
    }

    /** Records and prints one frame; a result is the reason to stop. */
    method ConsumeFrame(frame: DecodedFrame<StreamEvent>) returns (outcome: Option<Option<Interruption>>)
      modifies this, recorder
      ensures Reading(recorder.State(), printed, outcome)
           == Step(Reading(old(recorder.State()), old(printed), None), frame)
    {
      match frame {
        case Expired =>
          return Some(Some(CacheExpired));
        case Undecodable(name) =>
          printed := printed + [Unreadable(name)];
        case EventFrame(event) =>
          var line := recorder.RecordEvent(event);
          if line.Some? {
            printed := printed + [line.value];
          }
          if recorder.observation.terminal.Some? {
            return Some(None);
          }
      }
      return None;
    }

    /** Feeds one chunk to the recorder; a result is the reason to stop. */
    method ConsumeChunk(text: string, decoder: FrameDecoder<StreamEvent>) returns (outcome: Option<Option<Interruption>>)
      modifies this, recorder, decoder
      ensures var drained := Drain(old(decoder.buffer) + text);
        && decoder.buffer == drained.rest
        && Reading(recorder.State(), printed, outcome)
           == Feed(Reading(old(recorder.State()), old(printed), None), DecodeBlocks(decoder.parse, drained.blocks))
    {
      var frames := decoder.Push(text);
      ghost var start := Reading(recorder.State(), printed, None);
      for i := 0 to |frames|
        invariant decoder.buffer == Drain(old(decoder.buffer) + text).rest
        invariant Feed(start, frames) == Feed(Reading(recorder.State(), printed, None), frames[i..])
      {
        assert frames[i..][1..] == frames[i + 1..];
        outcome := ConsumeFrame(frames[i]);
        if outcome.Some? {
          return;
        }
      }
      return None;
    }

    /**
     * Reads chunks until there is a reason to stop, or they end as `ending` says. What is recorded,
     * printed and returned depends only on the text, not on where it was cut. A reader that stopped by
     * itself cancels the connection; a deadline that has passed by the end replaces the verdict,
     * whatever was read.
     */
    method ReadStream(chunks: seq<string>, parse: string -> Option<StreamEvent>, ending: Interruption,
                      deadlinePassed: bool)
      returns (interruption: Option<Interruption>, cancelled: bool)
      modifies this, recorder
      ensures var whole := Feed(Reading(old(recorder.State()), old(printed), None), Frames(parse, Concat(chunks)));
        && recorder.State() == whole.recorder && printed == whole.printed
        && cancelled == whole.stopped.Some?
        && interruption == if deadlinePassed then Some(PastDeadline)
                           else if whole.stopped.Some? then whole.stopped.value
                           else Some(ending)
    {
      var decoder := new FrameDecoder(parse);
      ghost var start := Reading(recorder.State(), printed, None);
      assert "" + Concat(chunks) == Concat(chunks);
      for i := 0 to |chunks|
        invariant decoder.parse == parse && fresh(decoder)
        invariant Feed(start, Frames(parse, Concat(chunks)))
               == Feed(Reading(recorder.State(), printed, None), Frames(parse, decoder.buffer + Concat(chunks[i..])))
        invariant BlankAt(decoder.buffer) == |decoder.buffer|
      {
        ghost var before, sofar := Reading(recorder.State(), printed, None), decoder.buffer + chunks[i];
        NextChunk(parse, before, decoder.buffer, chunks[i..]);
        assert chunks[i..][1..] == chunks[i + 1..];
        RestHasNoBlank(sofar);
        var outcome := ConsumeChunk(chunks[i], decoder);
        if outcome.Some? {
          return if deadlinePassed then Some(PastDeadline) else outcome.value, true;
        }
      }
      NoMore(parse, decoder.buffer);
      return Some(if deadlinePassed then PastDeadline else ending), false;
    }
  }

  /** Feeding a text is feeding what its first chunk completes, and then the rest. */
  lemma {:induction false} NextChunk(parse: string -> Option<StreamEvent>, r: Reading, buffer: string, chunks: seq<string>)
    requires chunks != []
    ensures var drained := Drain(buffer + chunks[0]);
      Feed(r, Frames(parse, buffer + Concat(chunks)))
      == Feed(Feed(r, DecodeBlocks(parse, drained.blocks)), Frames(parse, drained.rest + Concat(chunks[1..])))
  {
    var sofar, rest := buffer + chunks[0], Concat(chunks[1..]);
    Associate(buffer, chunks[0], rest);
    FramesInParts(parse, sofar, rest);
    FeedInParts(r, Frames(parse, sofar), Frames(parse, Drain(sofar).rest + rest));
  }

  lemma {:induction false} NoMore(parse: string -> Option<StreamEvent>, buffer: string)
    requires BlankAt(buffer) == |buffer|
    ensures Frames(parse, buffer + Concat([])) == []
  {
    assert buffer + "" == buffer;
  }

  // ---------------------------------------------------------------- from the turn to the observation

  const START := Reading(NOTHING_SEEN, [], None)

  /** The events of a stream that come from the loop; the announcement of the turn, preparation and protocol errors do not. */
  function TurnEventsOf(stream: seq<StreamEvent>): seq<AgentEvent> {
    if stream == [] then []
    else
      var last := stream[|stream| - 1];
      TurnEventsOf(stream[..|stream| - 1]) + if last.FromTurn? then [last.event] else []
  }

  function EventsOf(log: seq<Entry>): seq<AgentEvent> {
    if log == [] then [] else EventsOf(log[..|log| - 1]) + [log[|log| - 1].event]
  }

  ghost predicate Carries(frames: seq<DecodedFrame<StreamEvent>>, stream: seq<StreamEvent>) {
    && |frames| == |stream|
    && forall k :: 0 <= k < |stream| ==> frames[k] == EventFrame(stream[k])
  }

  lemma {:induction false} FeedOne(r: Reading, event: AgentEvent)
    requires r.stopped.None?
    ensures var next, frame := RecordTurn(r.recorder, event), EventFrame(FromTurn(event));
      && Feed(r, [frame]).recorder == next
      && Feed(r, [frame]).stopped == if next.observation.terminal.Some? then Some(None) else None
  {
    var frame := EventFrame(FromTurn(event));
    assert [frame][1..] == [];
    assert Feed(r, [frame]) == Feed(Step(r, frame), []);
  }

  /** What does not come from the loop is printed at most. */
  lemma {:induction false} FeedAside(r: Reading, event: StreamEvent)
    requires !event.FromTurn? && (r.stopped.None? ==> r.recorder.observation.terminal.None?)
    ensures Feed(r, [EventFrame(event)]).recorder == r.recorder && Feed(r, [EventFrame(event)]).stopped == r.stopped
  {
    var frame: DecodedFrame<StreamEvent> := EventFrame(event);
    assert [frame][1..] == [];
    assert r.stopped.None? ==> Feed(r, [frame]) == Feed(Step(r, frame), []);
  }

  lemma {:induction false} EndTells(log: seq<Entry>)
    requires Seen(log).sound
    ensures RecordAll(log).observation.terminal.Some? <==> Seen(log).ended.Some?
  {
    RecorderSeesTheTurn(log);
  }

  lemma {:induction false} NotEndedBefore(log: seq<Entry>)
    requires log != [] && Seen(log).sound
    ensures Seen(log[..|log| - 1]).sound && Seen(log[..|log| - 1]).ended.None?
  {
    SoundBefore(log, |log| - 1);
  }

  /** Reading a stream that carries a sound log, whatever else it carries, records the log. */
  ghost predicate ReadsAs(r: Reading, log: seq<Entry>) {
    r.recorder == RecordAll(log) && r.stopped == if Seen(log).ended.Some? then Some(None) else None
  }

  lemma {:induction false} FeedsTheLog(frames: seq<DecodedFrame<StreamEvent>>, stream: seq<StreamEvent>, log: seq<Entry>)
    requires Carries(frames, stream) && TurnEventsOf(stream) == EventsOf(log) && Seen(log).sound
    ensures ReadsAs(Feed(START, frames), log)
    decreases |stream|
  {
    EndTells(log);
    if stream == [] {
      assert frames == [] && log == [];
    } else {
      var n := |stream| - 1;
      var first := frames[..n];
      assert frames == first + [frames[n]] && Carries(first, stream[..n]);
      FeedInParts(START, first, [frames[n]]);
      if stream[n].FromTurn? {
        LastFromTurn(stream, log);
        NotEndedBefore(log);
        FeedsTheLog(first, stream[..n], log[..|log| - 1]);
        FeedOne(Feed(START, first), stream[n].event);
      } else {
        assert TurnEventsOf(stream[..n]) == TurnEventsOf(stream);
        FeedsTheLog(first, stream[..n], log);
        FeedAside(Feed(START, first), stream[n]);
      }
    }
  }

  lemma {:induction false} LastFromTurn(stream: seq<StreamEvent>, log: seq<Entry>)
    requires stream != [] && stream[|stream| - 1].FromTurn? && TurnEventsOf(stream) == EventsOf(log)
    ensures log != [] && log[|log| - 1].event == stream[|stream| - 1].event
    ensures TurnEventsOf(stream[..|stream| - 1]) == EventsOf(log[..|log| - 1])
  {
    var before, last := TurnEventsOf(stream[..|stream| - 1]), stream[|stream| - 1].event;
    assert TurnEventsOf(stream) == before + [last];
    assert log != [];
    assert EventsOf(log) == EventsOf(log[..|log| - 1]) + [log[|log| - 1].event];
    assert (before + [last])[|before|] == last;
    assert (before + [last])[..|before|] == before;
    var other := EventsOf(log[..|log| - 1]);
    assert (other + [log[|log| - 1].event])[..|other|] == other;
  }

  /**
   * A turn, with whatever the command and preparation put on the channel before and around it, sent as
   * frames with heartbeats anywhere between them, is observed as it happened; `parse` need only read
   * back the payloads that were sent.
   */
  lemma {:induction false} TurnIsObserved(log: seq<Entry>, stream: seq<StreamEvent>, sent: seq<Sent>,
                                          parse: string -> Option<StreamEvent>)
    requires Seen(log).sound && TurnEventsOf(stream) == EventsOf(log)
    requires forall k :: 0 <= k < |sent| ==> Plain(sent[k])
    requires |Payloads(sent)| == |stream|
    requires forall k :: 0 <= k < |stream| ==>
      Payloads(sent)[k].name !in {"", EXPIRED_EVENT} && parse(Payloads(sent)[k].data) == Some(stream[k])
    ensures var reading := Feed(START, Frames(parse, EncodeAll(sent)));
      && Matches(reading.recorder, Seen(log))
      && reading.stopped == if Seen(log).ended.Some? then Some(None) else None
  {
    var frames := Frames(parse, EncodeAll(sent));
    RoundTrip(sent);
    DecodesNamed(parse, Drain(EncodeAll(sent)).blocks);
    forall k | 0 <= k < |stream|
      ensures frames[k] == EventFrame(stream[k])
    {
      assert Decode(parse, Payloads(sent)[k]) == Some(frames[k]);
    }
    FeedsTheLog(frames, stream, log);
    RecorderSeesTheTurn(log);
  }
}

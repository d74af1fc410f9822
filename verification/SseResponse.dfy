/** A scripted event stream: which frames a reader resumes at, and the order they are delivered in. */
module SseResponse {
  import opened Common
  import opened EventStream

  // ---------------------------------------------------------------- stream ids

  predicate IsDigit(c: char) {
    '0' <= c <= '9'
  }

  predicate AllDigits(s: string) {
    s != "" && forall i :: 0 <= i < |s| ==> IsDigit(s[i])
  }

  function Value(digits: string): nat
    requires forall i :: 0 <= i < |digits| ==> IsDigit(digits[i])
  {
    if digits == "" then 0
    else
      var last := digits[|digits| - 1];
      assert IsDigit(last);
      10 * Value(digits[..|digits| - 1]) + (last as int - '0' as int)
  }

  /** The position of the first dash, or the length of the text. */
  function DashAt(s: string): (i: nat)
    ensures i <= |s|
  {
    if s == "" || s[0] == '-' then 0 else 1 + DashAt(s[1..])
  }

  /** Milliseconds and sequence number, for an id of that shape. */
  function Parse(id: string): Option<(nat, nat)> {
    var i := DashAt(id);
    if i < |id| && AllDigits(id[..i]) && AllDigits(id[i + 1..]) then Some((Value(id[..i]), Value(id[i + 1..]))) else None
  }

  /** Whether a sorts before b as plain text. */
  predicate Before(a: string, b: string) {
    b != "" && (a == "" || a[0] < b[0] || (a[0] == b[0] && Before(a[1..], b[1..])))
  }

  function CompareStreamIds(a: string, b: string): int {
    var left, right := Parse(a), Parse(b);
    if left.Some? && right.Some? then
      if left.value.0 != right.value.0 then left.value.0 - right.value.0
      else left.value.1 - right.value.1
    else if Before(a, b) then -1
    else if Before(b, a) then 1
    else 0
  }

  lemma {:induction false} BeforeIsStrict(a: string, b: string)
    ensures !(Before(a, b) && Before(b, a))
  {
    if a != "" && b != "" {
      BeforeIsStrict(a[1..], b[1..]);
    }
  }

  /** Turning a comparison around turns its sign, and nothing sorts before itself. */
  lemma CompareTurns(a: string, b: string)
    ensures CompareStreamIds(a, b) < 0 <==> CompareStreamIds(b, a) > 0
    ensures CompareStreamIds(a, a) == 0
  {
    BeforeIsStrict(a, b);
    BeforeIsStrict(a, a);
  }

  lemma CompareChains(a: string, b: string, c: string)
    requires Parse(a).Some? && Parse(b).Some? && Parse(c).Some?
    requires CompareStreamIds(a, b) < 0 && CompareStreamIds(b, c) < 0
    ensures CompareStreamIds(a, c) < 0
  {
  }

  // ---------------------------------------------------------------- resuming

  ghost predicate Script(frames: seq<Sent>) {
    forall i :: 0 <= i < |frames| ==> frames[i].Frame?
  }

  /** The frames a reader that has seen `from` is still to be sent. */
  function Remaining(frames: seq<Sent>, from: Option<string>): seq<Sent>
    requires Script(frames)
  {
    if from.None? then frames
    else if frames == [] then []
    else (if CompareStreamIds(frames[0].id, from.value) > 0 then [frames[0]] else []) + Remaining(frames[1..], from)
  }

  ghost predicate Increasing(frames: seq<Sent>)
    requires Script(frames)
  {
    forall i, j :: 0 <= i < j < |frames| ==> CompareStreamIds(frames[i].id, frames[j].id) < 0
  }

  ghost predicate StepByStep(frames: seq<Sent>)
    requires Script(frames)
  {
    forall i :: 0 <= i < |frames| - 1 ==> CompareStreamIds(frames[i].id, frames[i + 1].id) < 0
  }

  lemma {:induction false} AllRemain(frames: seq<Sent>, from: string)
    requires Script(frames) && forall i :: 0 <= i < |frames| ==> CompareStreamIds(frames[i].id, from) > 0
    ensures Remaining(frames, Some(from)) == frames
  {
    if frames != [] {
      var rest := frames[1..];
      assert forall i :: 0 <= i < |rest| ==> rest[i] == frames[i + 1];
      AllRemain(rest, from);
      assert frames == [frames[0]] + rest;
    }
  }

  /** A reader that resumes after frame k is sent exactly the frames after it. */
  ghost predicate ResumesAfter(frames: seq<Sent>, k: nat)
    requires Script(frames) && k < |frames|
  {
    Remaining(frames, Some(frames[k].id)) == frames[k + 1..]
  }

  /** Resuming after a delivered id delivers exactly the frames after it. */
  lemma {:induction false} ResumeIsExact(frames: seq<Sent>, k: nat)
    requires Script(frames) && k < |frames| && Increasing(frames)
    ensures ResumesAfter(frames, k)
  {
    var from := frames[k].id;
    CompareTurns(frames[0].id, from);
    if k == 0 {
      forall i | 0 <= i < |frames[1..]|
        ensures CompareStreamIds(frames[1..][i].id, from) > 0
      {
        CompareTurns(from, frames[i + 1].id);
      }
      AllRemain(frames[1..], from);
    } else {
      ResumeIsExact(frames[1..], k - 1);
    }
  }

  lemma {:induction false} RemainingIsAfter(frames: seq<Sent>, from: string, j: nat)
    requires Script(frames) && j < |Remaining(frames, Some(from))|
    ensures Remaining(frames, Some(from))[j].Frame? && CompareStreamIds(Remaining(frames, Some(from))[j].id, from) > 0
  {
    if CompareStreamIds(frames[0].id, from) <= 0 {
      RemainingIsAfter(frames[1..], from, j);
    } else if j > 0 {
      RemainingIsAfter(frames[1..], from, j - 1);
    }
  }

  lemma {:induction false} OutOfOrderIsLost(frames: seq<Sent>, i: nat, j: nat)
    requires Script(frames) && i < j < |frames| && CompareStreamIds(frames[i].id, frames[j].id) >= 0
    ensures !ResumesAfter(frames, i)
  {
    if |Remaining(frames, Some(frames[i].id))| == |frames| - i - 1 {
      RemainingIsAfter(frames, frames[i].id, j - i - 1);
      CompareTurns(frames[i].id, frames[j].id);
    }
  }

  /** A script can be resumed after each of its frames exactly if its ids increase. */
  lemma {:induction false} ResumesExactly(frames: seq<Sent>)
    requires Script(frames)
    ensures Increasing(frames) <==> forall k: nat :: k < |frames| ==> ResumesAfter(frames, k)
  {
    if Increasing(frames) {
      forall k: nat | k < |frames|
        ensures ResumesAfter(frames, k)
      {
        ResumeIsExact(frames, k);
      }
    } else {
      var i, j :| 0 <= i < j < |frames| && CompareStreamIds(frames[i].id, frames[j].id) >= 0;
      OutOfOrderIsLost(frames, i, j);
    }
  }

  /** Among ids of the expected shape it is enough that each sorts before the next. */
  lemma {:induction false} NeighboursSuffice(frames: seq<Sent>)
    requires Script(frames) && StepByStep(frames)
    requires forall i :: 0 <= i < |frames| ==> Parse(frames[i].id).Some?
    ensures Increasing(frames)
  {
    forall i, j | 0 <= i < j < |frames|
      ensures CompareStreamIds(frames[i].id, frames[j].id) < 0
    {
      ClimbTo(frames, i, j);
    }
  }

  lemma {:induction false} ClimbTo(frames: seq<Sent>, i: nat, j: nat)
    requires Script(frames) && StepByStep(frames) && i < j < |frames|
    requires forall i :: 0 <= i < |frames| ==> Parse(frames[i].id).Some?
    ensures CompareStreamIds(frames[i].id, frames[j].id) < 0
    decreases j - i
  {
    if j > i + 1 {
      ClimbTo(frames, i, j - 1);
      assert CompareStreamIds(frames[j - 1].id, frames[j - 1 + 1].id) < 0;
      CompareChains(frames[i].id, frames[j - 1].id, frames[j].id);
    }
  }

  lemma {:induction false} NumbersRead(n: nat)
    ensures AllDigits(Digits(n)) && Value(Digits(n)) == n
  {
    var digit := [('0' as int + n % 10) as char];
    assert digit[..0] == "";
    if n >= 10 {
      NumbersRead(n / 10);
      assert (Digits(n / 10) + digit)[..|Digits(n)| - 1] == Digits(n / 10);
    }
  }

  lemma {:induction false} DashAfter(digits: string, rest: string)
    requires forall i :: 0 <= i < |digits| ==> IsDigit(digits[i])
    ensures DashAt(digits + "-" + rest) == |digits|
  {
    var s := digits + "-" + rest;
    if digits != "" {
      assert IsDigit(digits[0]) && s[1..] == digits[1..] + "-" + rest;
      DashAfter(digits[1..], rest);
    }
  }

  /** An id as the server writes it. */
  function StreamId(ms: nat, n: nat): string {
    Digits(ms) + "-" + Digits(n)
  }

  lemma {:induction false} IdReads(ms: nat, n: nat)
    ensures Parse(StreamId(ms, n)) == Some((ms, n))
  {
    NumbersRead(ms);
    NumbersRead(n);
    DashAfter(Digits(ms), Digits(n));
    var id := StreamId(ms, n);
    assert id[..|Digits(ms)|] == Digits(ms) && id[|Digits(ms)| + 1..] == Digits(n);
  }

  /** Ids sort by their time, and ids of one time by their number. */
  lemma IdsSortByTime(ms: nat, n: nat, ms': nat, n': nat)
    ensures CompareStreamIds(StreamId(ms, n), StreamId(ms', n')) < 0 <==> ms < ms' || (ms == ms' && n < n')
    ensures CompareStreamIds(StreamId(ms, n), StreamId(ms', n')) == 0 <==> ms == ms' && n == n'
  {
    IdReads(ms, n);
    IdReads(ms', n');
  }

  /** The id a script gives the frame of that number. */
  function IdOf(baseMs: nat, number: nat): string {
    StreamId(baseMs + number, 0)
  }

  /** Whatever the frames say, the ids a script gives them increase. */
  lemma {:induction false} ScriptedIdsIncrease(frames: seq<Sent>, baseMs: nat)
    requires Script(frames) && forall i: nat :: i < |frames| ==> frames[i].id == IdOf(baseMs, i)
    ensures Increasing(frames)
  {
    forall i, j | 0 <= i < j < |frames|
      ensures CompareStreamIds(frames[i].id, frames[j].id) < 0
    {
      IdsSortByTime(baseMs + i, 0, baseMs + j, 0);
    }
  }

  /** Where the comparison goes round in a circle, a resume loses a frame. */
  lemma {:induction false} CirclesLoseAFrame(a: Sent, b: Sent, c: Sent)
    requires a.Frame? && b.Frame? && c.Frame?
    requires CompareStreamIds(a.id, b.id) < 0 && CompareStreamIds(c.id, a.id) < 0
    ensures Remaining([a, b, c], Some(a.id)) == [b]
  {
    CompareTurns(a.id, b.id);
    CompareTurns(a.id, a.id);
    assert [a, b, c][1..] == [b, c] && [b, c][1..] == [c] && [c][1..] == [];
    assert Remaining([c], Some(a.id)) == [];
    assert Remaining([b, c], Some(a.id)) == [b];
  }

  lemma {:induction false} MixedReads()
    ensures Parse("5x") == None
  {
    assert "5x"[1..] == "x" && "x"[1..] == "";
  }

  /** With an id of another shape the comparison does: by number, then twice as text. */
  lemma {:induction false} MixedShapesCircle()
    ensures CompareStreamIds(IdOf(9, 0), IdOf(10, 0)) < 0
    ensures CompareStreamIds(IdOf(10, 0), "5x") < 0 && CompareStreamIds("5x", IdOf(9, 0)) < 0
  {
    IdsSortByTime(9, 0, 10, 0);
    MixedReads();
    assert IdOf(9, 0)[0] == '9' && Digits(10)[0] == Digits(1)[0] == '1' && IdOf(10, 0)[0] == '1';
    assert Before(IdOf(10, 0), "5x") && Before("5x", IdOf(9, 0));
  }

  // ---------------------------------------------------------------- delivery

  function FramesOf(sent: seq<Sent>): seq<Sent> {
    if sent == [] then []
    else FramesOf(sent[..|sent| - 1]) + if sent[|sent| - 1].Frame? then [sent[|sent| - 1]] else []
  }

  lemma {:induction false} FramesNext(sent: seq<Sent>, next: Sent)
    ensures FramesOf(sent + [next]) == FramesOf(sent) + if next.Frame? then [next] else []
  {
    assert (sent + [next])[..|sent|] == sent;
  }

  /** The stream's own variables, its two timers, and what it has written. */
  class SseStream {
    const pending: seq<Sent>
    var index: nat
    var closed: bool
    /** Whether the heartbeat is set, and the frame the delay timer will write. */
    var beating: bool
    var scheduled: Option<Sent>
    var sent: seq<Sent>

    /** What was sent begins the script, up to the frame that is scheduled if one is; a closed stream has no timers. */
    ghost predicate Consistent()
      reads this
    {
      && Script(pending) && index <= |pending|
      && FramesOf(sent) <= pending
      && (scheduled.Some? ==>
            && beating && !closed && index > 0 && scheduled.value == pending[index - 1]
            && FramesOf(sent) == pending[..index - 1])
      && (closed ==> !beating && scheduled.None?)
    }

    /** Between its callbacks a stream that neither ended nor was left has its next frame scheduled. */
    ghost predicate Valid()
      reads this
    {
      Consistent() && (beating <==> scheduled.Some?)
    }

    constructor (frames: seq<Sent>, from: Option<string>, aborted: bool)
      requires Script(frames)
      ensures Valid() && pending == Remaining(frames, from) && sent == []
      ensures aborted ==> closed
      ensures !aborted ==> closed == (pending == []) && (pending != [] ==> scheduled == Some(pending[0]))
    {
      pending := Remaining(frames, from);
      index, closed, beating, scheduled, sent := 0, false, true, None, [];
      new;
      RemainingIsScript(frames, from);
      if aborted {
        Finish();
      } else {
        SendNext();
      }
    }

    /** Closes the stream and stops both timers; closing twice is harmless. */
    method Finish()
      requires Consistent()
      modifies `closed, `beating, `scheduled
      ensures Valid() && closed
    {
      if closed {
        return;
      }
      closed := true;
      beating, scheduled := false, None;
    }

    /** Schedules the next frame, or finishes after the last. */
    method SendNext()
      requires Consistent() && beating && !closed && scheduled.None? && FramesOf(sent) == pending[..index]
      modifies `index, `closed, `beating, `scheduled
      ensures Valid() && closed == (old(index) == |pending|) && (closed ==> FramesOf(sent) == pending)
      ensures !closed ==> scheduled == Some(pending[old(index)]) && index == old(index) + 1
    {
      if index == |pending| {
        Finish();
        return;
      }
      scheduled := Some(pending[index]);
      index := index + 1;
    }

    /** The delay is over: the scheduled frame is written, and then the next one's turn comes. */
    method DelayOver()
      requires Valid() && scheduled.Some?
      modifies `index, `closed, `beating, `scheduled, `sent
      ensures Valid() && sent == old(sent) + [old(scheduled).value]
      ensures FramesOf(sent) == FramesOf(old(sent)) + [old(scheduled).value] == pending[..old(index)]
      ensures closed <==> FramesOf(sent) == pending
      ensures !closed ==> scheduled == Some(pending[|FramesOf(sent)|])
    {
      FramesNext(sent, scheduled.value);
      sent := sent + [scheduled.value];
      scheduled := None;
      SendNext();
    }

    /** The heartbeat fires between frames and changes none of them. */
    method Beat()
      requires Valid() && beating
      modifies `sent
      ensures Valid() && sent == old(sent) + [Ping] && FramesOf(sent) == FramesOf(old(sent))
    {
      FramesNext(sent, Ping);
      sent := sent + [Ping];
    }

    /** The reader goes away: both timers stop, and nothing is sent any more. */
    method Cancel()
      requires Valid()
      modifies `beating, `scheduled
      ensures Valid() && !beating && scheduled.None?
    {
      beating, scheduled := false, None;
    }
  }

  lemma {:induction false} RemainingIsScript(frames: seq<Sent>, from: Option<string>)
    requires Script(frames)
    ensures Script(Remaining(frames, from))
  {
    if from.Some? && frames != [] {
      RemainingIsScript(frames[1..], from);
    }
  }

  lemma {:induction false} PayloadsOfFrames(sent: seq<Sent>)
    ensures Payloads(sent) == Payloads(FramesOf(sent))
  {
    if sent != [] {
      var n := |sent| - 1;
      PayloadsOfFrames(sent[..n]);
      assert sent == sent[..n] + [sent[n]];
      PayloadsInParts(sent[..n], [sent[n]]);
      PayloadsInParts(FramesOf(sent[..n]), if sent[n].Frame? then [sent[n]] else []);
    }
  }

  lemma {:induction false} PayloadsInParts(a: seq<Sent>, b: seq<Sent>)
    ensures Payloads(a + b) == Payloads(a) + Payloads(b)
  {
    if a == [] {
      assert a + b == b;
    } else {
      assert (a + b)[1..] == a[1..] + b;
      PayloadsInParts(a[1..], b);
      Associate(if a[0].Frame? then [Fields(a[0].event, a[0].data)] else [], Payloads(a[1..]), Payloads(b));
    }
  }

  lemma {:induction false} SentArePlain(sent: seq<Sent>)
    requires forall i :: 0 <= i < |FramesOf(sent)| ==> Plain(FramesOf(sent)[i])
    ensures forall i :: 0 <= i < |sent| ==> Plain(sent[i])
  {
    if sent != [] {
      var n := |sent| - 1;
      var before, last := FramesOf(sent[..n]), if sent[n].Frame? then [sent[n]] else [];
      assert FramesOf(sent) == before + last;
      forall i | 0 <= i < |before|
        ensures Plain(before[i])
      {
        assert FramesOf(sent)[i] == before[i];
      }
      SentArePlain(sent[..n]);
      assert sent[n].Frame? ==> FramesOf(sent)[|before|] == sent[n];
    }
  }

  /**
   * A reader that resumes after frame k of a script is handed exactly the frames after it, once they are
   * sent, with heartbeats anywhere between them and the text cut anywhere.
   */
  lemma {:induction false} ResumedStreamReads<Event>(frames: seq<Sent>, k: nat, sent: seq<Sent>,
      parse: string -> Option<Event>, chunks: seq<string>)
    requires Script(frames) && k < |frames| && Increasing(frames)
    requires forall i :: 0 <= i < |frames| ==> Plain(frames[i])
    requires FramesOf(sent) == Remaining(frames, Some(frames[k].id)) && Concat(chunks) == EncodeAll(sent)
    ensures var read, after := Flat(PushAll(parse, "", chunks)), Payloads(frames[k + 1..]);
      && |read| == |after| == |frames| - k - 1
      && forall i :: 0 <= i < |read| ==> Decode(parse, after[i]) == Some(read[i])
  {
    ResumeIsExact(frames, k);
    SentArePlain(sent);
    StreamRoundTrip(parse, sent, chunks);
    PayloadsOfFrames(sent);
    PayloadOfEach(frames[k + 1..]);
  }

  lemma {:induction false} PayloadOfEach(frames: seq<Sent>)
    requires Script(frames)
    ensures |Payloads(frames)| == |frames|
  {
    if frames != [] {
      PayloadOfEach(frames[1..]);
    }
  }
}

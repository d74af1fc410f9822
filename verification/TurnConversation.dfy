/** The conversation a turn builds, the model's answers, and how many times one step may ask for one. */
module TurnConversation {
  import opened Common
  import opened TurnEvents
  import PushDetector

  /** Model attempts per step: the first try plus three retries after a rate limit. */
  const MAX_MODEL_ATTEMPTS := 4

  const RETRY_BASE_MS := 1000

  const MS_PER_MINUTE := 60000

  const TOOL_NAMES := {"run_shell", "read_file", "write_file", "list_dir"}

  datatype Role = System | User | Assistant

  datatype Item =
    | Message(role: Role, content: string)
    | ToolCallItem(callId: string, name: string, arguments: string)
    | ToolResultItem(callId: string, output: string)

  datatype RequestedToolCall = RequestedToolCall(callId: string, name: string, arguments: string)

  /** What a tool answers, and what it streamed before it did. */
  datatype ToolExecutionResult = ToolExecutionResult(output: string, streamed: seq<Output>, exitCode: Option<int>,
                                                     bytes: nat, status: ToolStatus, command: Option<string>)

  predicate Pushed(result: ToolExecutionResult) {
    && result.command.Some?
    && PushDetector.LooksLikeGitPush(PushDetector.ShellOutcome(result.command.value, result.output, result.exitCode))
  }

  // ---------------------------------------------------------------- one answer of the model

  datatype ModelEvent =
    | TextDelta(text: string)
    | TextDone(text: string)
    | CallAsked(call: RequestedToolCall)
    | CallArgumentsDelta
    | ResponseDone(usage: Usage)
    | ModelError(code: string, message: string)

  /** What a provider yields, and the exception it ends with if it does. */
  datatype ModelStream = ModelStream(events: seq<ModelEvent>, exception: Option<string>)

  datatype ModelOutcome =
    | Ok(text: string, toolCalls: seq<RequestedToolCall>, usage: Usage)
    | Cancelled
    | Error(code: string, message: string)

  /** The text, the calls and the usage a run of events adds up to. */
  datatype Gathered = Gathered(text: string, toolCalls: seq<RequestedToolCall>, usage: Option<Usage>)

  const NOTHING_YET := Gathered("", [], None)

  function Absorb(sofar: Gathered, event: ModelEvent): Gathered {
    match event
    case TextDelta(text) => sofar.(text := sofar.text + text)
    case TextDone(text) => sofar.(text := text)
    case CallAsked(call) => sofar.(toolCalls := sofar.toolCalls + [call])
    case ResponseDone(usage) => sofar.(usage := Some(usage))
    case _ => sofar
  }

  /** A stream ends at its first error, else at its exception, else with what it added up to. */
  function Answer(sofar: Gathered, stream: ModelStream): ModelOutcome
    decreases |stream.events|
  {
    if stream.events != [] then
      var first := stream.events[0];
      if first.ModelError? then Error(first.code, first.message)
      else Answer(Absorb(sofar, first), stream.(events := stream.events[1..]))
    else if stream.exception.Some? then Error("unknown", stream.exception.value)
    else if sofar.usage.None? then Error("unknown", "model stream ended without response.done")
    else Ok(sofar.text, sofar.toolCalls, sofar.usage.value)
  }

  /** Whether a stream runs to its end without an error or an exception. */
  predicate RunsOut(stream: ModelStream) {
    stream.exception.None? && forall e :: e in stream.events ==> !e.ModelError?
  }

  function DeltaOf(event: ModelEvent): string {
    if event.TextDelta? then event.text else ""
  }

  /** The text of the deltas, in order. */
  function DeltaText(events: seq<ModelEvent>): string {
    if events == [] then "" else DeltaOf(events[0]) + DeltaText(events[1..])
  }

  /** What reading one event of a stream does to the three. */
  lemma StreamNext(stream: ModelStream, i: nat)
    requires i < |stream.events|
    ensures var event, here, next :=
        stream.events[i], stream.(events := stream.events[i..]), stream.(events := stream.events[i + 1..]);
      && (RunsOut(here) <==> !event.ModelError? && RunsOut(next))
      && (forall before: string :: before + DeltaText(here.events) == (before + DeltaOf(event)) + DeltaText(next.events))
      && (forall sofar :: Answer(sofar, here) ==
           if event.ModelError? then Error(event.code, event.message) else Answer(Absorb(sofar, event), next))
  {
    var here := stream.events[i..];
    assert here[0] == stream.events[i] && here[1..] == stream.events[i + 1..];
    assert here == [stream.events[i]] + here[1..];
    forall before: string
      ensures before + DeltaText(here) == (before + DeltaOf(here[0])) + DeltaText(here[1..])
    {
    }
  }

  function AskedIn(events: seq<ModelEvent>): seq<RequestedToolCall> {
    if events == [] then []
    else (if events[0].CallAsked? then [events[0].call] else []) + AskedIn(events[1..])
  }

  /**
   * An answer holds every call that was asked for, in order, and exists only if the stream ran out and
   * reported its usage.
   */
  lemma {:induction false} AnswerHoldsEveryCall(sofar: Gathered, stream: ModelStream)
    ensures var answer := Answer(sofar, stream);
      && (answer.Ok? ==> RunsOut(stream) && answer.toolCalls == sofar.toolCalls + AskedIn(stream.events))
      && (RunsOut(stream) && (sofar.usage.Some? || exists e :: e in stream.events && e.ResponseDone?) ==> answer.Ok?)
    decreases |stream.events|
  {
    if stream.events != [] {
      var first, rest := stream.events[0], stream.(events := stream.events[1..]);
      assert stream.events == [first] + rest.events;
      AnswerHoldsEveryCall(Absorb(sofar, first), rest);
    }
  }

  /** Without a final text an answer speaks what is streamed. */
  lemma {:induction false} AnswerSpeaksOn(sofar: Gathered, stream: ModelStream)
    requires Answer(sofar, stream).Ok? && forall j :: 0 <= j < |stream.events| ==> !stream.events[j].TextDone?
    ensures Answer(sofar, stream).text == sofar.text + DeltaText(stream.events)
    decreases |stream.events|
  {
    if stream.events == [] {
      assert sofar.text + "" == sofar.text;
    } else {
      var first, rest := stream.events[0], stream.(events := stream.events[1..]);
      AnswerSpeaksOn(Absorb(sofar, first), rest);
      Associate(sofar.text, DeltaOf(first), DeltaText(rest.events));
      assert sofar.text + "" == sofar.text;
    }
  }

  /** The last final text of a stream counts, and only what is streamed after it adds to it; k is -1 if there is none. */
  lemma {:induction false} AnswerSpeaks(sofar: Gathered, stream: ModelStream, k: int)
    requires Answer(sofar, stream).Ok? && -1 <= k < |stream.events| && (k >= 0 ==> stream.events[k].TextDone?)
    requires forall j :: k < j < |stream.events| ==> !stream.events[j].TextDone?
    ensures Answer(sofar, stream).text
         == (if k >= 0 then stream.events[k].text else sofar.text) + DeltaText(stream.events[k + 1..])
    decreases |stream.events|
  {
    if k == -1 {
      AnswerSpeaksOn(sofar, stream);
      assert stream.events[0..] == stream.events;
    } else {
      var first, rest := stream.events[0], stream.(events := stream.events[1..]);
      assert rest.events[k..] == stream.events[k + 1..];
      AnswerSpeaks(Absorb(sofar, first), rest, k - 1);
    }
  }

  /** The usage of an answer is the one reported last; k is -1 if none was. */
  lemma {:induction false} AnswerCharges(sofar: Gathered, stream: ModelStream, k: int)
    requires Answer(sofar, stream).Ok? && -1 <= k < |stream.events| && (k >= 0 ==> stream.events[k].ResponseDone?)
    requires forall j :: k < j < |stream.events| ==> !stream.events[j].ResponseDone?
    ensures Some(Answer(sofar, stream).usage) == if k >= 0 then Some(stream.events[k].usage) else sofar.usage
    decreases |stream.events|
  {
    if stream.events != [] {
      AnswerCharges(Absorb(sofar, stream.events[0]), stream.(events := stream.events[1..]), if k > 0 then k - 1 else -1);
    }
  }

  /** How much of a stream is listened to: up to its first error. */
  function HeardOf(events: seq<ModelEvent>): (n: nat)
    ensures n <= |events|
  {
    if events == [] then 0 else if events[0].ModelError? then 1 else 1 + HeardOf(events[1..])
  }

  lemma {:induction false} HeardUntil(events: seq<ModelEvent>, i: nat)
    requires i <= |events| && (forall k :: 0 <= k < i ==> !events[k].ModelError?)
    ensures i == |events| ==> HeardOf(events) == i
    ensures i < |events| ==> HeardOf(events) >= i + 1
    ensures i < |events| && events[i].ModelError? ==> HeardOf(events) == i + 1
  {
    if i > 0 {
      HeardUntil(events[1..], i - 1);
    }
  }

  lemma {:induction false} DeltaNext(events: seq<ModelEvent>, i: nat)
    requires i < |events|
    ensures DeltaText(events[..i + 1]) == DeltaText(events[..i]) + DeltaOf(events[i])
  {
    if i == 0 {
      assert events[..1][1..] == [];
    } else {
      assert events[..i + 1][1..] == events[1..][..i] && events[..i][1..] == events[1..][..i - 1];
      DeltaNext(events[1..], i - 1);
    }
  }

  /**
   * A call is listened to up to its first error, and means what its stream adds up to, unless the signal
   * is up once the stream has run out; a piece of text whose line is lost ends it with an error.
   */
  ghost predicate Hears(stream: ModelStream, heard: nat, muted: bool, outcome: ModelOutcome) {
    if muted then
      && 0 < heard <= |stream.events| && stream.events[heard - 1].TextDelta? && heard <= HeardOf(stream.events)
      && outcome.Error? && outcome.code == "unknown"
    else
      && heard == HeardOf(stream.events)
      && (outcome == Answer(NOTHING_YET, stream) || (outcome == Cancelled && RunsOut(stream)))
  }

  /** The first i events have been taken in: they add up to what was gathered, and their text was streamed on. */
  ghost predicate ReadingAs(stream: ModelStream, i: nat, sofar: Gathered, before: string, spoken: string) {
    && i <= |stream.events| && (forall k :: 0 <= k < i ==> !stream.events[k].ModelError?)
    && Answer(NOTHING_YET, stream) == Answer(sofar, stream.(events := stream.events[i..]))
    && (RunsOut(stream) <==> RunsOut(stream.(events := stream.events[i..])))
    && spoken == before + DeltaText(stream.events[..i])
  }

  ghost predicate Reading(stream: ModelStream, i: nat, sofar: Gathered, before: string, spoken: string) {
    forall n: int {:trigger Of(n)} :: n == i ==> ReadingAs(stream, i, sofar, before, spoken)
  }

  lemma {:induction false} ReadingBegins(stream: ModelStream, before: string)
    ensures Reading(stream, 0, NOTHING_YET, before, before)
  {
    assert before + DeltaText(stream.events[..0]) == before;
    assert stream.events[0..] == stream.events;
    assert ReadingAs(stream, 0, NOTHING_YET, before, before);
  }

  /** What one more event makes of it, by what it is and by whether its line is lost. */
  lemma {:induction false} ReadingNext(stream: ModelStream, i: nat, sofar: Gathered, before: string, spoken: string)
    requires i < |stream.events| && Reading(stream, i, sofar, before, spoken)
    ensures var event, more := stream.events[i], spoken + DeltaOf(stream.events[i]);
      && more == before + DeltaText(stream.events[..i + 1])
      && (event.ModelError? ==> Hears(stream, i + 1, false, Error(event.code, event.message)) && !RunsOut(stream))
      && (!event.ModelError? ==> Reading(stream, i + 1, Absorb(sofar, event), before, more))
      && (event.TextDelta? ==> forall reason :: Hears(stream, i + 1, true, Error("unknown", reason)))
  {
    assert Of(i);
    var event, more := stream.events[i], spoken + DeltaOf(stream.events[i]);
    StreamNext(stream, i);
    HeardUntil(stream.events, i);
    DeltaNext(stream.events, i);
    Associate(before, DeltaText(stream.events[..i]), DeltaOf(event));
    if !event.ModelError? {
      assert ReadingAs(stream, i + 1, Absorb(sofar, event), before, more);
    }
  }

  lemma {:induction false} ReadingEnds(stream: ModelStream, sofar: Gathered, before: string, spoken: string)
    requires Reading(stream, |stream.events|, sofar, before, spoken)
    ensures HeardOf(stream.events) == |stream.events| && spoken == before + DeltaText(stream.events[..|stream.events|])
    ensures RunsOut(stream) <==> stream.exception.None?
    ensures Answer(NOTHING_YET, stream) ==
      if stream.exception.Some? then Error("unknown", stream.exception.value)
      else if sofar.usage.None? then Error("unknown", "model stream ended without response.done")
      else Ok(sofar.text, sofar.toolCalls, sofar.usage.value)
  {
    assert Of(|stream.events|);
    HeardUntil(stream.events, |stream.events|);
    assert stream.events[|stream.events|..] == [];
  }

  // ---------------------------------------------------------------- one step

  /** One provider call: the conversation it was shown, what it yields, and whether the abort signal was up. */
  datatype ProviderCall = ProviderCall(snapshot: seq<Item>, stream: ModelStream, aborted: bool)

  /** How much of it was listened to, whether that ended with a line that was lost, and what came of it. */
  datatype Attempt = Attempt(call: ProviderCall, heard: nat, muted: bool, outcome: ModelOutcome)

  ghost predicate Listens(a: Attempt) {
    forall n: int {:trigger Of(n)} :: n == a.heard ==> Hears(a.call.stream, a.heard, a.muted, a.outcome)
  }

  /** The text a call has streamed on. */
  function Heard(a: Attempt): string {
    if a.heard <= |a.call.stream.events| then DeltaText(a.call.stream.events[..a.heard]) else ""
  }

  /** The provider calls of one step up to its last, the backoffs after them, and what the step made of them. */
  datatype Round = Round(limited: seq<Attempt>, last: Attempt, sleeps: seq<int>, outcome: ModelOutcome)

  /** The wait after a rate limit, doubled by each further one. */
  function Backoff(attempt: nat): int
    requires attempt >= 1
  {
    if attempt == 1 then RETRY_BASE_MS else 2 * Backoff(attempt - 1)
  }

  predicate RateLimited(outcome: ModelOutcome) {
    outcome.Error? && outcome.code == "rate_limit"
  }

  /** The waits after the first n rate limits. */
  function Waits(n: nat): seq<int> {
    if n == 0 then [] else Waits(n - 1) + [Backoff(n)]
  }

  /** An attempt after n others is shown the conversation, and made only while the signal is down if it is a retry. */
  ghost predicate Attempted(a: Attempt, items: seq<Item>, n: nat) {
    a.call.snapshot == items && Listens(a) && (n > 0 ==> !a.call.aborted)
  }

  /** Every attempt was shown the same conversation and was turned away by a rate limit. */
  ghost predicate AllLimited(attempts: seq<Attempt>, items: seq<Item>) {
    forall i :: 0 <= i < |attempts| ==> Attempted(attempts[i], items, i) && RateLimited(attempts[i].outcome)
  }

  ghost predicate Retrying(limited: seq<Attempt>, sleeps: seq<int>, items: seq<Item>) {
    AllLimited(limited, items) && sleeps == Waits(|limited|)
  }

  /**
   * What one step may do: show every attempt the same conversation, retry rate limits only and at most
   * three times, and pass on what the last attempt brought unless it is cancelled while it waits.
   */
  ghost predicate RetriedAs(round: Round, items: seq<Item>) {
    && Attempted(round.last, items, |round.limited|) && |round.limited| < MAX_MODEL_ATTEMPTS
    && (|| (&& Retrying(round.limited, round.sleeps, items) && round.outcome == round.last.outcome
            && (RateLimited(round.outcome) ==> |round.limited| + 1 == MAX_MODEL_ATTEMPTS))
        || (&& Retrying(round.limited + [round.last], round.sleeps, items) && round.outcome == Cancelled
            && |round.limited| + 1 < MAX_MODEL_ATTEMPTS))
  }

  ghost predicate Retried(round: Round, items: seq<Item>) {
    forall n: int {:trigger Of(n)} :: n == |round.limited| ==> RetriedAs(round, items)
  }

  function Total(sleeps: seq<int>): int {
    if sleeps == [] then 0 else Total(sleeps[..|sleeps| - 1]) + sleeps[|sleeps| - 1]
  }

  lemma RoundWaits(round: Round, items: seq<Item>) returns (n: nat)
    requires Retried(round, items)
    ensures |round.limited| <= 3 && n <= 3 && round.sleeps == Waits(n)
  {
    assert Of(|round.limited|);
    n := if Retrying(round.limited, round.sleeps, items) then |round.limited| else |round.limited + [round.last]|;
  }

  /** A step calls the provider at most four times and waits one, two and four seconds between, seven in all. */
  lemma StepIsBounded(round: Round, items: seq<Item>)
    requires Retried(round, items)
    ensures |round.limited| + 1 <= 4 && round.sleeps <= [1000, 2000, 4000] && Total(round.sleeps) <= 7000
  {
    var n := RoundWaits(round, items);
    WaitsAreBounded(n);
  }

  lemma FirstBackoffs()
    ensures Backoff(1) == 1000 && Backoff(2) == 2000 && Backoff(3) == 4000
  {
  }

  lemma FirstWaits()
    ensures Waits(0) == [] && Waits(1) == [1000] && Waits(2) == [1000, 2000] && Waits(3) == [1000, 2000, 4000]
  {
    FirstBackoffs();
    assert Waits(1) == Waits(0) + [Backoff(1)] && Waits(2) == Waits(1) + [Backoff(2)] && Waits(3) == Waits(2) + [Backoff(3)];
  }

  lemma FirstTotals()
    ensures Total([]) == 0 && Total([1000]) == 1000 && Total([1000, 2000]) == 3000 && Total([1000, 2000, 4000]) == 7000
  {
    assert [1000][..0] == [] && [1000, 2000][..1] == [1000] && [1000, 2000, 4000][..2] == [1000, 2000];
  }

  lemma {:induction false} WaitsAreBounded(n: nat)
    requires n <= 3
    ensures Waits(n) <= [1000, 2000, 4000] && Total(Waits(n)) <= 7000
  {
    FirstWaits();
    FirstTotals();
    assert n == 0 || n == 1 || n == 2 || n == 3;
  }

  function Charged(usage: Usage, outcome: ModelOutcome): Usage {
    if outcome.Ok? then
      Usage(usage.inputTokens + outcome.usage.inputTokens, usage.outputTokens + outcome.usage.outputTokens)
    else usage
  }

  /** The tokens of the rounds that brought an answer; a failed attempt adds none. */
  function Spent(rounds: seq<Round>): Usage {
    if rounds == [] then Usage(0, 0) else Charged(Spent(rounds[..|rounds| - 1]), rounds[|rounds| - 1].outcome)
  }

  // ---------------------------------------------------------------- what passes between the loop and the provider

  /** The calls made, the waits, the text streamed on, and how many pieces of it were lost. */
  datatype Traffic = Traffic(provided: seq<ProviderCall>, slept: seq<int>, spoken: string, muted: nat)

  const NO_TRAFFIC := Traffic([], [], "", 0)

  function Attempts(round: Round): seq<Attempt> {
    round.limited + [round.last]
  }

  /** What one more attempt adds. */
  function PlusOne(t: Traffic, a: Attempt): Traffic {
    Traffic(t.provided + [a.call], t.slept, t.spoken + Heard(a), t.muted + if a.muted then 1 else 0)
  }

  function PlusAll(t: Traffic, attempts: seq<Attempt>): Traffic {
    if attempts == [] then t else PlusOne(PlusAll(t, attempts[..|attempts| - 1]), attempts[|attempts| - 1])
  }

  lemma {:induction false} PlusNext(t: Traffic, attempts: seq<Attempt>, a: Attempt)
    ensures PlusAll(t, attempts + [a]) == PlusOne(PlusAll(t, attempts), a)
  {
    assert (attempts + [a])[..|attempts|] == attempts;
  }

  function PlusRound(t: Traffic, round: Round): Traffic {
    var made := PlusAll(t, Attempts(round));
    made.(slept := t.slept + round.sleeps)
  }

  /** The attempts of a step so far, all turned away, and what has passed since it began. */
  ghost predicate TryingAs(before: Traffic, now: Traffic, limited: seq<Attempt>, sleeps: seq<int>, items: seq<Item>) {
    Retrying(limited, sleeps, items) && now == PlusAll(before, limited).(slept := before.slept + sleeps)
  }

  ghost predicate Trying(before: Traffic, now: Traffic, limited: seq<Attempt>, sleeps: seq<int>, items: seq<Item>) {
    forall n: int {:trigger Of(n)} :: n == |limited| ==> TryingAs(before, now, limited, sleeps, items)
  }

  lemma {:induction false} TryingBegins(before: Traffic, items: seq<Item>)
    ensures Trying(before, before, [], [], items)
  {
    assert before.slept + [] == before.slept;
    var none: seq<Attempt> := [];
    assert TryingAs(before, before, none, [], items);
  }

  lemma WaitsAside(t: Traffic, a: Attempt, some: seq<int>, more: seq<int>)
    ensures PlusOne(t.(slept := some), a).(slept := more) == PlusOne(t, a).(slept := more)
  {
  }

  lemma {:induction false} LimitedGrows(limited: seq<Attempt>, sleeps: seq<int>, items: seq<Item>, last: Attempt)
    requires Retrying(limited, sleeps, items) && Attempted(last, items, |limited|) && RateLimited(last.outcome)
    ensures Retrying(limited + [last], sleeps + [Backoff(|limited| + 1)], items)
  {
  }

  lemma {:induction false} TryingGoesOn(before: Traffic, now: Traffic, limited: seq<Attempt>, sleeps: seq<int>,
                                        items: seq<Item>, last: Attempt)
    requires Trying(before, now, limited, sleeps, items) && Attempted(last, items, |limited|) && RateLimited(last.outcome)
    ensures var ms := Backoff(|limited| + 1);
      Trying(before, PlusOne(now, last).(slept := now.slept + [ms]), limited + [last], sleeps + [ms], items)
  {
    assert Of(|limited|);
    var ms, all := Backoff(|limited| + 1), limited + [last];
    LimitedGrows(limited, sleeps, items, last);
    PlusNext(before, limited, last);
    Associate(before.slept, sleeps, [ms]);
    WaitsAside(PlusAll(before, limited), last, before.slept + sleeps, before.slept + (sleeps + [ms]));
    assert TryingAs(before, PlusOne(now, last).(slept := now.slept + [ms]), all, sleeps + [ms], items);
  }

  lemma {:induction false} TryingEnds(before: Traffic, now: Traffic, limited: seq<Attempt>, sleeps: seq<int>,
                                      items: seq<Item>, last: Attempt)
    requires Trying(before, now, limited, sleeps, items) && Attempted(last, items, |limited|)
    requires |limited| < MAX_MODEL_ATTEMPTS && (RateLimited(last.outcome) ==> |limited| + 1 == MAX_MODEL_ATTEMPTS)
    ensures var round := Round(limited, last, sleeps, last.outcome);
      Retried(round, items) && PlusOne(now, last) == PlusRound(before, round)
  {
    assert Of(|limited|);
    PlusNext(before, limited, last);
    assert RetriedAs(Round(limited, last, sleeps, last.outcome), items);
  }

  lemma {:induction false} TryingStops(before: Traffic, now: Traffic, limited: seq<Attempt>, sleeps: seq<int>,
                                       items: seq<Item>, last: Attempt)
    requires Trying(before, now, limited + [last], sleeps, items) && Attempted(last, items, |limited|)
    requires |limited| + 1 < MAX_MODEL_ATTEMPTS
    ensures var round := Round(limited, last, sleeps, Cancelled);
      Retried(round, items) && now == PlusRound(before, round)
  {
    assert Of(|limited + [last]|);
    assert RetriedAs(Round(limited, last, sleeps, Cancelled), items);
  }

  function TrafficOf(rounds: seq<Round>): Traffic {
    if rounds == [] then NO_TRAFFIC else PlusRound(TrafficOf(rounds[..|rounds| - 1]), rounds[|rounds| - 1])
  }

  /** Everything that passed was part of a round. Said of every prefix as long as the rounds, so as not to be unfolded. */
  ghost predicate Carries(t: Traffic, rounds: seq<Round>) {
    forall all {:trigger TrafficOf(all)} :: all <= rounds && |all| == |rounds| ==> TrafficOf(all) == t
  }

  lemma {:induction false} CarriesAll(t: Traffic, rounds: seq<Round>)
    ensures Carries(t, rounds) <==> TrafficOf(rounds) == t
  {
    forall all: seq<Round> | all <= rounds && |all| == |rounds|
      ensures all == rounds
    {
    }
    assert TrafficOf(rounds) == TrafficOf(rounds);
  }

  lemma {:induction false} CarriesNext(t: Traffic, rounds: seq<Round>, round: Round)
    requires Carries(t, rounds)
    ensures Carries(PlusRound(t, round), rounds + [round])
  {
    CarriesAll(t, rounds);
    assert (rounds + [round])[..|rounds|] == rounds;
    CarriesAll(PlusRound(t, round), rounds + [round]);
  }

  function CallsOf(attempts: seq<Attempt>): seq<ProviderCall> {
    seq(|attempts|, i requires 0 <= i < |attempts| => attempts[i].call)
  }

  lemma CallsNext(attempts: seq<Attempt>)
    requires attempts != []
    ensures CallsOf(attempts) == CallsOf(attempts[..|attempts| - 1]) + [attempts[|attempts| - 1].call]
  {
  }

  lemma {:induction false} PlusAllCalls(t: Traffic, attempts: seq<Attempt>)
    ensures PlusAll(t, attempts).provided == t.provided + CallsOf(attempts)
  {
    if attempts == [] {
      assert t.provided + CallsOf(attempts) == t.provided;
    } else {
      var n := |attempts| - 1;
      PlusAllCalls(t, attempts[..n]);
      CallsNext(attempts);
      Associate(t.provided, CallsOf(attempts[..n]), [attempts[n].call]);
    }
  }

  /** The calls of a run of rounds, in order. */
  function ProvidedIn(rounds: seq<Round>): seq<ProviderCall> {
    if rounds == [] then [] else ProvidedIn(rounds[..|rounds| - 1]) + CallsOf(Attempts(rounds[|rounds| - 1]))
  }

  lemma {:induction false} ProvidedIsTraffic(rounds: seq<Round>)
    ensures TrafficOf(rounds).provided == ProvidedIn(rounds)
  {
    if rounds != [] {
      ProvidedIsTraffic(rounds[..|rounds| - 1]);
      PlusAllCalls(TrafficOf(rounds[..|rounds| - 1]), Attempts(rounds[|rounds| - 1]));
    }
  }

  /** Every call that was made is one of a round. */
  lemma {:induction false} CallIsOfARound(rounds: seq<Round>, j: nat) returns (k: nat, i: nat)
    requires j < |ProvidedIn(rounds)|
    ensures k < |rounds| && i < |Attempts(rounds[k])| && ProvidedIn(rounds)[j] == Attempts(rounds[k])[i].call
  {
    var n := |rounds| - 1;
    var before := |ProvidedIn(rounds[..n])|;
    if j < before {
      k, i := CallIsOfARound(rounds[..n], j);
    } else {
      k, i := n, j - before;
    }
  }

  /** Every call of a round was made. */
  lemma {:induction false} RoundMakesCalls(rounds: seq<Round>, k: nat, i: nat) returns (j: nat)
    requires k < |rounds| && i < |Attempts(rounds[k])|
    ensures j < |ProvidedIn(rounds)| && ProvidedIn(rounds)[j] == Attempts(rounds[k])[i].call
  {
    var n := |rounds| - 1;
    if k == n {
      j := |ProvidedIn(rounds[..n])| + i;
    } else {
      var earlier := rounds[..n];
      assert earlier[k] == rounds[k];
      j := RoundMakesCalls(earlier, k, i);
    }
  }

  // ---------------------------------------------------------------- the conversation

  /** What a turn adds to the conversation: a message of the model, or a tool call that ran. */
  datatype Exchange = Said(text: string) | Ran(call: RequestedToolCall, result: ToolExecutionResult)

  /** A call that was handed to the tools, and what they answered. */
  datatype Execution = Execution(call: RequestedToolCall, result: ToolExecutionResult)

  function Rendered(exchange: Exchange, redact: string -> string): seq<Item> {
    match exchange
    case Said(text) => [Message(Assistant, text)]
    case Ran(call, result) =>
      [ToolCallItem(call.callId, call.name, call.arguments), ToolResultItem(call.callId, redact(result.output))]
  }

  function Render(exchanges: seq<Exchange>, redact: string -> string): seq<Item> {
    if exchanges == [] then []
    else Render(exchanges[..|exchanges| - 1], redact) + Rendered(exchanges[|exchanges| - 1], redact)
  }

  /** Every call item is followed by its own result, redacted, and every result follows its call. */
  lemma {:induction false} CallsArePaired(exchanges: seq<Exchange>, redact: string -> string, k: nat)
    requires k < |Render(exchanges, redact)|
    ensures var items := Render(exchanges, redact);
      && (items[k].ToolCallItem? ==>
            && k + 1 < |items| && items[k + 1].ToolResultItem? && items[k + 1].callId == items[k].callId
            && exists e :: e in exchanges && e.Ran?
                        && items[k] == ToolCallItem(e.call.callId, e.call.name, e.call.arguments)
                        && items[k + 1].output == redact(e.result.output))
      && (items[k].ToolResultItem? ==> k > 0 && items[k - 1].ToolCallItem? && items[k - 1].callId == items[k].callId)
  {
    var n := |exchanges| - 1;
    var before := Render(exchanges[..n], redact);
    if k < |before| {
      CallsArePaired(exchanges[..n], redact, k);
      assert forall e :: e in exchanges[..n] ==> e in exchanges;
    } else {
      assert exchanges[n] in exchanges;
    }
  }

  /** The calls that name a known tool, in order. */
  function KnownRuns(exchanges: seq<Exchange>): (runs: seq<Exchange>)
    ensures forall run :: run in runs ==> run.Ran?
  {
    if exchanges == [] then []
    else
      var last := exchanges[|exchanges| - 1];
      KnownRuns(exchanges[..|exchanges| - 1]) + if last.Ran? && last.call.name in TOOL_NAMES then [last] else []
  }

  /** The tools that ran, in order. */
  function RunsIn(exchanges: seq<Exchange>): seq<Execution> {
    if exchanges == [] then []
    else
      var last := exchanges[|exchanges| - 1];
      RunsIn(exchanges[..|exchanges| - 1]) + if last.Ran? then [Execution(last.call, last.result)] else []
  }

  /** The calls among the items, and what the model says in them. */
  function CallsIn(items: seq<Item>): seq<RequestedToolCall> {
    if items == [] then []
    else
      var last := items[|items| - 1];
      CallsIn(items[..|items| - 1])
      + if last.ToolCallItem? then [RequestedToolCall(last.callId, last.name, last.arguments)] else []
  }

  function SpokenIn(items: seq<Item>): seq<string> {
    if items == [] then []
    else
      var last := items[|items| - 1];
      SpokenIn(items[..|items| - 1]) + if last.Message? && last.role == Assistant then [last.content] else []
  }

  lemma {:induction false} ItemNext(items: seq<Item>, item: Item)
    ensures CallsIn(items + [item])
         == CallsIn(items) + if item.ToolCallItem? then [RequestedToolCall(item.callId, item.name, item.arguments)] else []
    ensures SpokenIn(items + [item]) == SpokenIn(items) + if item.Message? && item.role == Assistant then [item.content] else []
  {
    assert (items + [item])[..|items|] == items;
  }

  function RanCalls(exchanges: seq<Exchange>): seq<RequestedToolCall> {
    if exchanges == [] then []
    else
      var last := exchanges[|exchanges| - 1];
      RanCalls(exchanges[..|exchanges| - 1]) + if last.Ran? then [last.call] else []
  }

  /** From the conversation can be read, in order, every call that ran, as it was asked for, and every message of the model. */
  lemma {:induction false} RenderReadsBack(exchanges: seq<Exchange>, redact: string -> string)
    ensures CallsIn(Render(exchanges, redact)) == RanCalls(exchanges)
    ensures SpokenIn(Render(exchanges, redact)) == SaidTexts(exchanges)
  {
    if exchanges != [] {
      var n := |exchanges| - 1;
      var before, last := Render(exchanges[..n], redact), exchanges[n];
      RenderReadsBack(exchanges[..n], redact);
      if last.Said? {
        ItemNext(before, Message(Assistant, last.text));
      } else {
        var call, result := ToolCallItem(last.call.callId, last.call.name, last.call.arguments),
                            ToolResultItem(last.call.callId, redact(last.result.output));
        ItemNext(before, call);
        ItemNext(before + [call], result);
        assert before + Rendered(last, redact) == before + [call] + [result];
      }
    }
  }

  const UNKNOWN_TOOL := "unknown tool; available tools: run_shell, read_file, write_file, list_dir"

  /** What the tools answer to a name they do not know. */
  function UnknownTool(): ToolExecutionResult {
    ToolExecutionResult(UNKNOWN_TOOL, [], None, |UNKNOWN_TOOL|, Failed, None)
  }

  /** How long something took; the clock may have been set back. */
  function Elapsed(from: int, to: int): (ms: nat) {
    if to > from then to - from else 0
  }

  /** What is shown of a tool's output: what it streamed, or else all of it at once. */
  function ShownOutput(result: ToolExecutionResult): seq<Output> {
    if result.streamed != [] || result.output == "" then result.streamed
    else [(if result.status == Succeeded then Stdout else Stderr, result.output)]
  }

  /** What was not streamed is shown in one piece, on the stream for failures exactly if the tool did not succeed. */
  lemma ShownInOnePiece(result: ToolExecutionResult)
    requires result.streamed == [] && result.output != ""
    ensures |ShownOutput(result)| == 1 && ShownOutput(result)[0].1 == result.output
    ensures ShownOutput(result)[0].0 == Stderr <==> result.status == Failed || result.status == TimedOut
  {
  }

  /** The two events of a call say what was asked and what came of it, with its output between. */
  ghost predicate Shows(finished: Finished, call: RequestedToolCall, result: ToolExecutionResult) {
    && finished.call.ToolCall? && finished.call.callId == call.callId
    && finished.call.name == call.name && finished.call.arguments == call.arguments
    && finished.result.ToolResult? && finished.result.callId == call.callId && finished.result.exitCode == result.exitCode
    && finished.result.bytes == result.bytes && finished.result.status == result.status
    && finished.output == ShownOutput(result)
  }

  ghost predicate AllShown(finished: seq<Finished>, runs: seq<Exchange>) {
    && |finished| == |runs|
    && forall i :: 0 <= i < |runs| ==> runs[i].Ran? && Shows(finished[i], runs[i].call, runs[i].result)
  }

  /** What the model asks for: to say something, or to run a tool. */
  datatype Request = Say(text: string) | Call(call: RequestedToolCall)

  function Requested(exchange: Exchange): Request {
    match exchange
    case Said(text) => Say(text)
    case Ran(call, _) => Call(call)
  }

  function Served(exchanges: seq<Exchange>): seq<Request> {
    seq(|exchanges|, i requires 0 <= i < |exchanges| => Requested(exchanges[i]))
  }

  function Calls(calls: seq<RequestedToolCall>): seq<Request> {
    seq(|calls|, i requires 0 <= i < |calls| => Call(calls[i]))
  }

  function Wishes(outcome: ModelOutcome): seq<Request> {
    if outcome.Ok? then (if outcome.text == "" then [] else [Say(outcome.text)]) + Calls(outcome.toolCalls) else []
  }

  /** What the answers of a run of steps ask for, in order. */
  function Asked(rounds: seq<Round>): seq<Request> {
    if rounds == [] then [] else Asked(rounds[..|rounds| - 1]) + Wishes(rounds[|rounds| - 1].outcome)
  }

  /** Whether the last answer, if there is one, asks for tools. */
  predicate AsksOn(rounds: seq<Round>) {
    rounds == [] || (rounds[|rounds| - 1].outcome.Ok? && rounds[|rounds| - 1].outcome.toolCalls != [])
  }

  function SaidTexts(exchanges: seq<Exchange>): seq<string> {
    if exchanges == [] then []
    else
      var last := exchanges[|exchanges| - 1];
      SaidTexts(exchanges[..|exchanges| - 1]) + if last.Said? then [last.text] else []
  }

  function LastOf(messages: seq<string>): string {
    if messages == [] then "" else messages[|messages| - 1]
  }

  function Pushes(exchanges: seq<Exchange>): nat {
    if exchanges == [] then 0
    else
      var last := exchanges[|exchanges| - 1];
      Pushes(exchanges[..|exchanges| - 1]) + if last.Ran? && Pushed(last.result) then 1 else 0
  }

  lemma {:induction false} RenderNext(exchanges: seq<Exchange>, e: Exchange, redact: string -> string)
    ensures Render(exchanges + [e], redact) == Render(exchanges, redact) + Rendered(e, redact)
  {
    assert (exchanges + [e])[..|exchanges|] == exchanges;
  }

  lemma {:induction false} ExchangeNext(exchanges: seq<Exchange>, e: Exchange)
    ensures KnownRuns(exchanges + [e]) == KnownRuns(exchanges) + if e.Ran? && e.call.name in TOOL_NAMES then [e] else []
    ensures Pushes(exchanges + [e]) == Pushes(exchanges) + if e.Ran? && Pushed(e.result) then 1 else 0
    ensures SaidTexts(exchanges + [e]) == SaidTexts(exchanges) + if e.Said? then [e.text] else []
    ensures Served(exchanges + [e]) == Served(exchanges) + [Requested(e)]
    ensures RunsIn(exchanges + [e]) == RunsIn(exchanges) + if e.Ran? then [Execution(e.call, e.result)] else []
  {
    assert (exchanges + [e])[..|exchanges|] == exchanges;
  }

  /**
   * The tools ran what was exchanged, and the channel shows it: every known call with its result, a look
   * at the work tree for every push, and the messages in order. Said of every prefix as long as the
   * exchanges, so as not to be unfolded.
   */
  ghost predicate Reflects(finished: seq<Finished>, executed: seq<Execution>, looks: nat, messages: seq<string>,
                           exchanges: seq<Exchange>)
  {
    forall all {:trigger KnownRuns(all)} {:trigger RunsIn(all)} {:trigger Pushes(all)} {:trigger SaidTexts(all)} ::
      all <= exchanges && |all| == |exchanges| ==>
      && AllShown(finished, KnownRuns(all)) && executed == RunsIn(all)
      && looks == Pushes(all) && messages == SaidTexts(all)
  }

  function Earlier(messages: seq<string>): seq<string> {
    if messages == [] then [] else messages[..|messages| - 1]
  }

  /** What was served and what is pending are together what was asked for. Said of the whole, as above. */
  ghost predicate Owes(exchanges: seq<Exchange>, rounds: seq<Round>, pending: seq<Request>) {
    forall all {:trigger Served(all)} :: all <= exchanges && |all| == |exchanges| ==> Served(all) + pending == Asked(rounds)
  }

  lemma {:induction false} OwesAll(exchanges: seq<Exchange>, rounds: seq<Round>, pending: seq<Request>)
    ensures Owes(exchanges, rounds, pending) <==> Served(exchanges) + pending == Asked(rounds)
  {
    forall all: seq<Exchange> | all <= exchanges && |all| == |exchanges|
      ensures all == exchanges
    {
    }
    assert Served(exchanges) == Served(exchanges);
  }

  lemma AfterNone<T>(a: seq<T>, b: seq<T>, c: seq<T>)
    requires a + [] == b
    ensures a + c == b + c
  {
    assert a + [] == a;
  }

  lemma OwesRound(exchanges: seq<Exchange>, rounds: seq<Round>, round: Round)
    requires Owes(exchanges, rounds, [])
    ensures Owes(exchanges, rounds + [round], Wishes(round.outcome))
  {
    OwesAll(exchanges, rounds, []);
    RoundNext(rounds, round);
    AfterNone(Served(exchanges), Asked(rounds), Wishes(round.outcome));
    OwesAll(exchanges, rounds + [round], Wishes(round.outcome));
  }

  lemma CallsFirst(calls: seq<RequestedToolCall>)
    requires calls != []
    ensures Calls(calls) == [Call(calls[0])] + Calls(calls[1..])
  {
  }

  /** Serving what is asked for next leaves the rest pending. */
  lemma OwesServed(exchanges: seq<Exchange>, rounds: seq<Round>, next: Exchange, rest: seq<Request>)
    requires Owes(exchanges, rounds, [Requested(next)] + rest)
    ensures Owes(exchanges + [next], rounds, rest)
  {
    OwesAll(exchanges, rounds, [Requested(next)] + rest);
    ExchangeNext(exchanges, next);
    Associate(Served(exchanges), [Requested(next)], rest);
    OwesAll(exchanges + [next], rounds, rest);
  }

  lemma OwesSaid(exchanges: seq<Exchange>, rounds: seq<Round>, text: string, rest: seq<Request>)
    requires Owes(exchanges, rounds, [Say(text)] + rest)
    ensures Owes(exchanges + [Said(text)], rounds, rest)
  {
    OwesServed(exchanges, rounds, Said(text), rest);
  }

  lemma OwesRan(exchanges: seq<Exchange>, rounds: seq<Round>, calls: seq<RequestedToolCall>, result: ToolExecutionResult)
    requires calls != [] && Owes(exchanges, rounds, Calls(calls))
    ensures Owes(exchanges + [Ran(calls[0], result)], rounds, Calls(calls[1..]))
  {
    CallsFirst(calls);
    OwesServed(exchanges, rounds, Ran(calls[0], result), Calls(calls[1..]));
  }

  lemma {:induction false} ReflectsAll(finished: seq<Finished>, executed: seq<Execution>, looks: nat,
                                       messages: seq<string>, exchanges: seq<Exchange>)
    ensures Reflects(finished, executed, looks, messages, exchanges) <==>
            && AllShown(finished, KnownRuns(exchanges)) && executed == RunsIn(exchanges)
            && looks == Pushes(exchanges) && messages == SaidTexts(exchanges)
  {
    assert AllShown(finished, KnownRuns(exchanges)) || !AllShown(finished, KnownRuns(exchanges));
    forall all: seq<Exchange> | all <= exchanges && |all| == |exchanges|
      ensures all == exchanges
    {
    }
  }

  lemma ReflectsSaid(finished: seq<Finished>, executed: seq<Execution>, looks: nat, messages: seq<string>,
                     exchanges: seq<Exchange>, text: string)
    requires Reflects(finished, executed, looks, messages, exchanges)
    ensures Reflects(finished, executed, looks, messages + [text], exchanges + [Said(text)])
  {
    ReflectsAll(finished, executed, looks, messages, exchanges);
    ExchangeNext(exchanges, Said(text));
    ReflectsAll(finished, executed, looks, messages + [text], exchanges + [Said(text)]);
  }

  lemma ShownNext(finished: seq<Finished>, runs: seq<Exchange>, shown: seq<Finished>, more: seq<Exchange>)
    requires AllShown(finished, runs) && AllShown(shown, more)
    ensures AllShown(finished + shown, runs + more)
  {
  }

  lemma OutputNext(before: seq<Output>, chunks: seq<Output>, i: nat)
    requires i < |chunks|
    ensures before + chunks[..i + 1] == (before + chunks[..i]) + [(chunks[i].0, chunks[i].1)]
  {
    assert chunks[..i + 1] == chunks[..i] + [chunks[i]];
  }

  /** A tool call that ran; `shown` holds its two events if the tool is known, and a push calls for a look if it pushed. */
  lemma ReflectsRan(finished: seq<Finished>, executed: seq<Execution>, looks: nat, messages: seq<string>,
                    exchanges: seq<Exchange>, call: RequestedToolCall, result: ToolExecutionResult, shown: seq<Finished>)
    requires Reflects(finished, executed, looks, messages, exchanges)
    requires if call.name in TOOL_NAMES then |shown| == 1 && Shows(shown[0], call, result) else shown == []
    ensures Reflects(finished + shown, executed + [Execution(call, result)], looks + if Pushed(result) then 1 else 0,
                     messages, exchanges + [Ran(call, result)])
  {
    var all := exchanges + [Ran(call, result)];
    ReflectsAll(finished, executed, looks, messages, exchanges);
    ExchangeNext(exchanges, Ran(call, result));
    ShownNext(finished, KnownRuns(exchanges), shown, if call.name in TOOL_NAMES then [Ran(call, result)] else []);
    ReflectsAll(finished + shown, executed + [Execution(call, result)], looks + if Pushed(result) then 1 else 0,
                messages, all);
  }

  /** What is announced: of each look at the work tree the branch and commit it found. */
  function Announced(heads: seq<Option<(string, string)>>): seq<(string, string)> {
    if heads == [] then []
    else
      var last := heads[|heads| - 1];
      Announced(heads[..|heads| - 1]) + if last.Some? then [last.value] else []
  }

  lemma {:induction false} AnnouncedNext(heads: seq<Option<(string, string)>>, head: Option<(string, string)>)
    ensures Announced(heads + [head]) == Announced(heads) + if head.Some? then [head.value] else []
  {
    assert (heads + [head])[..|heads|] == heads;
  }

  lemma {:induction false} RoundNext(rounds: seq<Round>, round: Round)
    ensures Spent(rounds + [round]) == Charged(Spent(rounds), round.outcome)
    ensures Asked(rounds + [round]) == Asked(rounds) + Wishes(round.outcome)
  {
    assert (rounds + [round])[..|rounds|] == rounds;
  }

  /** Round k was shown what was given and what had been exchanged when all that earlier rounds asked for was served. */
  ghost predicate ShownAt(given: seq<Item>, rounds: seq<Round>, k: nat, exchanges: seq<Exchange>, redact: string -> string)
    requires k < |rounds|
  {
    var n := |Asked(rounds[..k])|;
    n <= |exchanges| && Retried(rounds[k], given + Render(exchanges[..n], redact))
  }

  ghost predicate Faithful(given: seq<Item>, rounds: seq<Round>, exchanges: seq<Exchange>, redact: string -> string) {
    forall k :: 0 <= k < |rounds| ==> ShownAt(given, rounds, k, exchanges, redact)
  }

  lemma FaithfulOn(given: seq<Item>, rounds: seq<Round>, exchanges: seq<Exchange>, redact: string -> string, e: Exchange)
    requires Faithful(given, rounds, exchanges, redact)
    ensures Faithful(given, rounds, exchanges + [e], redact)
  {
    forall k | 0 <= k < |rounds|
      ensures ShownAt(given, rounds, k, exchanges + [e], redact)
    {
      var n := |Asked(rounds[..k])|;
      assert ShownAt(given, rounds, k, exchanges, redact);
      assert (exchanges + [e])[..n] == exchanges[..n];
    }
  }

  lemma {:induction false} FaithfulNext(given: seq<Item>, rounds: seq<Round>, exchanges: seq<Exchange>,
                                        redact: string -> string, round: Round)
    requires Faithful(given, rounds, exchanges, redact) && |Asked(rounds)| == |exchanges|
    requires Retried(round, given + Render(exchanges, redact))
    ensures Faithful(given, rounds + [round], exchanges, redact)
  {
    var all := rounds + [round];
    forall k | 0 <= k < |all|
      ensures ShownAt(given, all, k, exchanges, redact)
    {
      assert all[..k] == rounds[..k];
      if k < |rounds| {
        assert ShownAt(given, rounds, k, exchanges, redact);
      } else {
        assert rounds[..k] == rounds && exchanges[..|exchanges|] == exchanges;
      }
    }
  }

  /**
   * The conversation is what was given plus what was exchanged, the usage is that of the answers, and
   * every provider call saw the conversation as it was. Said of the whole of both histories, as above.
   */
  ghost predicate Keeps(given: seq<Item>, items: seq<Item>, usage: Usage, rounds: seq<Round>, exchanges: seq<Exchange>,
                        redact: string -> string) {
    forall es, rs {:trigger Render(es, redact), Spent(rs)} ::
      es <= exchanges && |es| == |exchanges| && rs <= rounds && |rs| == |rounds| ==>
        items == given + Render(es, redact) && usage == Spent(rs) && Faithful(given, rs, es, redact)
  }

  lemma {:induction false} KeepsAll(given: seq<Item>, items: seq<Item>, usage: Usage, rounds: seq<Round>,
                                    exchanges: seq<Exchange>, redact: string -> string)
    ensures Keeps(given, items, usage, rounds, exchanges, redact) <==>
            && items == given + Render(exchanges, redact) && usage == Spent(rounds)
            && Faithful(given, rounds, exchanges, redact)
  {
    var es, rs := exchanges, rounds;
    assert Render(es, redact) == Render(exchanges, redact) && Spent(rs) == Spent(rounds);
    forall es: seq<Exchange>, rs: seq<Round> | es <= exchanges && |es| == |exchanges| && rs <= rounds && |rs| == |rounds|
      ensures es == exchanges && rs == rounds
    {
    }
  }

  lemma KeepsExchange(given: seq<Item>, items: seq<Item>, usage: Usage, rounds: seq<Round>, exchanges: seq<Exchange>,
                      redact: string -> string, e: Exchange)
    requires Keeps(given, items, usage, rounds, exchanges, redact)
    ensures Keeps(given, items + Rendered(e, redact), usage, rounds, exchanges + [e], redact)
  {
    var more := Rendered(e, redact);
    KeepsAll(given, items, usage, rounds, exchanges, redact);
    RenderNext(exchanges, e, redact);
    FaithfulOn(given, rounds, exchanges, redact, e);
    KeepsAll(given, items + more, usage, rounds, exchanges + [e], redact);
  }

  lemma KeepsRound(given: seq<Item>, items: seq<Item>, usage: Usage, rounds: seq<Round>, exchanges: seq<Exchange>,
                   redact: string -> string, round: Round)
    requires Keeps(given, items, usage, rounds, exchanges, redact) && Owes(exchanges, rounds, []) && Retried(round, items)
    ensures Keeps(given, items, Charged(usage, round.outcome), rounds + [round], exchanges, redact)
  {
    KeepsAll(given, items, usage, rounds, exchanges, redact);
    OwesAll(exchanges, rounds, []);
    RoundNext(rounds, round);
    FaithfulNext(given, rounds, exchanges, redact, round);
    KeepsAll(given, items, Charged(usage, round.outcome), rounds + [round], exchanges, redact);
  }

  // ---------------------------------------------------------------- text

  /** Milliseconds as whole minutes, a half rounded up. */
  function Minutes(ms: nat): nat {
    (2 * ms + MS_PER_MINUTE) / (2 * MS_PER_MINUTE)
  }

  function LimitMessage(steps: nat, maxTurnMs: nat, sofar: string): string {
    "Stopped after " + Digits(steps) + " steps / " + Digits(Minutes(maxTurnMs)) + " min (limit reached). Work so far: "
    + if sofar == "" then "no final message" else sofar
  }

  function NoteLines(notes: seq<string>): string {
    if notes == [] then "" else "\n- " + notes[0] + NoteLines(notes[1..])
  }

  const NOTES_HEADER := "Workspace preparation reported:"

  function PrepareNoteItems(notes: seq<string>): seq<Item> {
    if notes == [] then [] else [Message(System, NOTES_HEADER + NoteLines(notes))]
  }

  /** The minutes are the nearest whole ones, the greater where two are as near. */
  lemma MinutesAreNearest(ms: nat)
    ensures MS_PER_MINUTE * Minutes(ms) - MS_PER_MINUTE / 2 <= ms < MS_PER_MINUTE * Minutes(ms) + MS_PER_MINUTE / 2
  {
  }

  function Dashed(notes: seq<string>): seq<string> {
    seq(|notes|, i requires 0 <= i < |notes| => "- " + notes[i])
  }

  lemma {:induction false} NotesFollow(line: string, notes: seq<string>)
    requires PushDetector.OneLine(line) && forall note :: note in notes ==> PushDetector.OneLine(note)
    ensures PushDetector.Lines(line + NoteLines(notes)) == [line] + Dashed(notes)
    decreases |notes|
  {
    if notes == [] {
      assert line + "" == line;
      PushDetector.LastLine(line);
    } else {
      var next, rest := "- " + notes[0], notes[1..];
      assert notes[0] in notes;
      NotesFollow(next, rest);
      assert line + NoteLines(notes) == line + "\n" + (next + NoteLines(rest));
      PushDetector.LineThenRest(line, '\n', next + NoteLines(rest));
      assert Dashed(notes) == [next] + Dashed(rest);
    }
  }

  /** What preparation found is told in one system item, a line for each note, in order. */
  lemma NotesReadBack(notes: seq<string>)
    requires notes != [] && forall note :: note in notes ==> PushDetector.OneLine(note)
    ensures var items := PrepareNoteItems(notes);
      && |items| == 1 && items[0].Message? && items[0].role == System
      && PushDetector.Lines(items[0].content) == [NOTES_HEADER] + Dashed(notes)
  {
    NotesFollow(NOTES_HEADER, notes);
  }
}

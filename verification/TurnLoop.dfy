/**
 * The model and tools loop of one turn.
 *
 * Everything the loop waits for is free to do what it likes: a provider may yield any events and
 * raise at any point, a tool may stream and answer anything, a write may fail, the clock may show
 * any time, and at every await the abort signal may rise and an armed heartbeat may fire.
 */
module TurnLoop {
  import opened Common
  import opened TurnEvents
  import opened TurnConversation

  datatype LoopOutcome = CompletedTurn | CancelledTurn | FailedTurn(code: string)

  /** How one step leaves the loop: it goes on, it has ended the turn, or the exception of a failed write escapes. */
  datatype StepEnd = GoOn | Ended(outcome: LoopOutcome) | Threw

  predicate EndsAs(event: AgentEvent, outcome: LoopOutcome) {
    match outcome
    case CompletedTurn => event.TurnCompleted?
    case CancelledTurn => event.TurnCancelled?
    case FailedTurn(code) => event.TurnFailed? && event.code == code
  }

  /** Nothing but heartbeats has been added. */
  ghost predicate Beats(before: seq<Entry>, after: seq<Entry>) {
    before <= after && forall k :: |before| <= k < |after| ==> after[k].event.Heartbeat?
  }

  /** Said of every prefix as long as the log, that is of the log, so that proofs about the loop need not unfold `Seen`. */
  ghost predicate IsSeen(log: seq<Entry>, seen: Watch) {
    forall prefix {:trigger Seen(prefix)} :: prefix <= log && |prefix| == |log| ==> Seen(prefix) == seen
  }

  lemma SeenOne(log: seq<Entry>, seen: Watch, entry: Entry)
    requires IsSeen(log, seen)
    ensures IsSeen(log + [entry], Observe(seen, entry))
  {
    SeenNext(log, entry);
    assert Seen(log) == seen;
    forall prefix | prefix <= log + [entry] && |prefix| == |log + [entry]|
      ensures Seen(prefix) == Observe(seen, entry)
    {
      assert prefix == log + [entry];
    }
  }

  /** The accounts of a turn: what was seen of it, its counters, its history, and what passed between it and the outside. */
  datatype Account = Account(seen: Watch, spoken: string, muted: nat, steps: nat, seqNo: nat, finalMessage: string,
                             exchanges: seq<Exchange>, executed: seq<Execution>,
                             heads: seq<Option<(string, string)>>, readings: seq<int>,
                             startedAt: int, maxSteps: nat, maxTurnMs: nat)

  /** Every step was begun on a reading of the clock before the limit. */
  ghost predicate InTime(times: seq<Option<int>>, readings: seq<int>, startedAt: int, maxTurnMs: nat) {
    && readings != [] && readings[0] == startedAt
    && forall i :: 0 <= i < |times| ==> times[i].Some? && times[i].value - startedAt < maxTurnMs
  }

  /** The clock shows that the time is over. */
  predicate TimeUp(readings: seq<int>, startedAt: int, maxTurnMs: nat) {
    readings != [] && readings[|readings| - 1] - startedAt >= maxTurnMs
  }

  /**
   * Nothing that is waited for was lost, no call is running, the loop's counters say what it has emitted,
   * and every step began in time; `looks` pushes were looked up.
   */
  ghost predicate Orderly(a: Account, looks: nat) {
    && a.seen.sound && a.seen.ended.None? && !a.seen.reported && !a.seen.lost && a.seen.running.None?
    && a.seen.steps == a.steps && a.seen.calls == a.seqNo == |a.seen.finished|
    && a.seen.spoken == a.spoken && a.seen.muted == a.muted && a.seen.pushes == Announced(a.heads)
    && a.finalMessage == LastOf(a.seen.messages) && InTime(a.seen.times, a.readings, a.startedAt, a.maxTurnMs)
    && Reflects(a.seen.finished, a.executed, looks, a.seen.messages, a.exchanges)
  }

  ghost predicate InOrder(a: Account, looks: nat) {
    forall n: int {:trigger Of(n)} :: n == looks ==> Orderly(a, looks)
  }

  // ---------------------------------------------------------------- what keeps the accounts in order

  lemma OpenInOrder(a: Account, looks: nat)
    requires InOrder(a, looks)
    ensures a.seen.sound && a.seen.ended.None? && !a.seen.reported && !a.seen.lost && a.seen.running.None?
    ensures a.readings != [] && a.readings[0] == a.startedAt && a.seen.steps == a.steps
  {
    assert Of(looks);
  }

  lemma ReadInOrder(a: Account, looks: nat, ms: int)
    requires InOrder(a, looks)
    ensures InOrder(a.(readings := a.readings + [ms]), looks)
  {
    assert Of(looks);
    assert Orderly(a.(readings := a.readings + [ms]), looks);
  }

  lemma DeltaInOrder(a: Account, looks: nat, next: Watch, entry: Entry, text: string)
    requires InOrder(a, looks) && Follows(a.seen, next, entry) && entry.event == AssistantDelta(text)
    ensures InOrder(a.(seen := next, spoken := a.spoken + text,
                       muted := a.muted + if entry.delivered then 0 else 1), looks)
  {
    assert Of(looks) && Of(a.seen.steps);
    assert Orderly(a.(seen := next, spoken := a.spoken + text,
                      muted := a.muted + if entry.delivered then 0 else 1), looks);
  }

  lemma MessageInOrder(a: Account, looks: nat, next: Watch, entry: Entry, text: string)
    requires InOrder(a, looks) && Follows(a.seen, next, entry) && entry.event == AssistantMessage(text) && entry.delivered
    ensures InOrder(a.(seen := next, finalMessage := text, exchanges := a.exchanges + [Said(text)]), looks)
  {
    assert Of(looks) && Of(a.seen.steps);
    ReflectsSaid(a.seen.finished, a.executed, looks, a.seen.messages, a.exchanges, text);
    assert Orderly(a.(seen := next, finalMessage := text, exchanges := a.exchanges + [Said(text)]), looks);
  }

  lemma StepInOrder(a: Account, looks: nat, next: Watch, entry: Entry)
    requires InOrder(a, looks) && Follows(a.seen, next, entry)
    requires entry.event == StepStarted(a.steps + 1) && entry.delivered && !entry.aborted
    requires entry.reading.Some? && entry.reading.value - a.startedAt < a.maxTurnMs
    ensures InOrder(a.(seen := next, steps := a.steps + 1), looks)
  {
    assert Of(looks) && Of(a.seen.steps);
    assert Orderly(a.(seen := next, steps := a.steps + 1), looks);
  }

  lemma PushInOrder(a: Account, looks: nat, next: Watch, entry: Entry, head: (string, string))
    requires InOrder(a, looks) && Follows(a.seen, next, entry) && entry.event == GitPushed(head.0, head.1) && entry.delivered
    ensures InOrder(a.(seen := next, heads := a.heads + [Some(head)]), looks)
  {
    assert Of(looks) && Of(a.seen.steps);
    AnnouncedNext(a.heads, Some(head));
    assert Orderly(a.(seen := next, heads := a.heads + [Some(head)]), looks);
  }

  lemma NoPushInOrder(a: Account, looks: nat)
    requires InOrder(a, looks)
    ensures InOrder(a.(heads := a.heads + [None]), looks)
  {
    assert Of(looks);
    AnnouncedNext(a.heads, None);
    assert a.seen.pushes + [] == a.seen.pushes;
    assert Orderly(a.(heads := a.heads + [None]), looks);
  }

  // ---------------------------------------------------------------- how a turn ends

  /** What the event that ends a turn says of it. */
  ghost predicate Tells(a: Account, rounds: seq<Round>, event: AgentEvent) {
    && a.seen.steps == a.steps == |rounds| && InTime(a.seen.times, a.readings, a.startedAt, a.maxTurnMs)
    && a.seen.pushes == Announced(a.heads) && a.seen.spoken == a.spoken && a.seen.muted == a.muted
    && (event.TurnCompleted? ==>
          event.usage == Spent(rounds) && event.steps == a.steps && event.finalMessage == LastOf(a.seen.messages))
    && EndsBecause(a, rounds, event)
    && (var limit := event.TurnCompleted? && event.byLimit;
        && (limit ==>
              && a.seen.messages != []
              && LastOf(a.seen.messages) == LimitMessage(a.steps, a.maxTurnMs, LastOf(Earlier(a.seen.messages))))
        && Reflects(a.seen.finished, a.executed, |a.heads|,
                    if limit then Earlier(a.seen.messages) else a.seen.messages, a.exchanges))
  }

  ghost predicate Reports(a: Account, rounds: seq<Round>, event: AgentEvent) {
    forall n: int {:trigger Of(n)} :: n == |rounds| ==> Tells(a, rounds, event)
  }

  /**
   * Why a turn ends: the model asks for nothing more, or failed, or all it asked for is served and the steps
   * are used up or the time is over; a turn that is cancelled would have gone on, or was waiting for the model.
   */
  ghost predicate EndsBecause(a: Account, rounds: seq<Round>, event: AgentEvent) {
    match event
    case TurnCompleted(_, _, _, true) =>
      && AsksOn(rounds) && Owes(a.exchanges, rounds, [])
      && (a.steps == a.maxSteps || TimeUp(a.readings, a.startedAt, a.maxTurnMs))
    case TurnCompleted(_, _, _, false) =>
      && rounds != [] && rounds[|rounds| - 1].outcome.Ok? && rounds[|rounds| - 1].outcome.toolCalls == []
      && Owes(a.exchanges, rounds, [])
    case TurnCancelled => AsksOn(rounds) || rounds[|rounds| - 1].outcome == Cancelled
    case TurnFailed(code, message) => rounds != [] && rounds[|rounds| - 1].outcome == Error(code, message)
    case _ => false
  }

  /** After one more entry. */
  ghost predicate Follows(w: Watch, next: Watch, entry: Entry) {
    forall n: int {:trigger Of(n)} :: n == w.steps ==> next == Observe(w, entry)
  }

  /** The loss of a line that is waited for is seen, and puts nothing out of place. */
  lemma LossIsSeen(w: Watch, next: Watch, entry: Entry)
    requires Follows(w, next, entry) && w.sound && w.ended.None? && !w.reported && w.running.None?
    requires Awaited(entry.event) && !entry.delivered && InPlace(w, entry)
    ensures next.sound && !next.reported && next.lost
    ensures next.ended == if entry.event.Terminal() then Some(entry.event) else None
  {
    assert Of(w.steps);
  }

  /** The message about a limit, once it was delivered, and the event that ends the turn after it. */
  lemma {:induction false} LimitTells(a: Account, rounds: seq<Round>, next: Watch, entry: Entry, usage: Usage)
    requires InOrder(a, |a.heads|) && Follows(a.seen, next, entry) && entry.delivered
    requires entry.event == AssistantMessage(LimitMessage(a.steps, a.maxTurnMs, a.finalMessage))
    requires |rounds| == a.steps && AsksOn(rounds) && Owes(a.exchanges, rounds, []) && usage == Spent(rounds)
    requires a.steps == a.maxSteps || TimeUp(a.readings, a.startedAt, a.maxTurnMs)
    ensures next.sound && next.ended.None? && !next.reported && !next.lost && next.running.None?
    ensures var text := entry.event.text;
      Reports(a.(seen := next, finalMessage := text), rounds, TurnCompleted(usage, a.steps, text, true))
  {
    assert Of(a.seen.steps) && Of(|a.heads|);
    assert Earlier(next.messages) == a.seen.messages;
    var text := entry.event.text;
    assert Tells(a.(seen := next, finalMessage := text), rounds, TurnCompleted(usage, a.steps, text, true));
  }

  /** The event that ends a turn adds nothing to its accounts, and is seen as its end. */
  lemma {:induction false} EndReports(a: Account, rounds: seq<Round>, next: Watch, entry: Entry)
    requires Reports(a, rounds, entry.event) && Follows(a.seen, next, entry) && entry.event.Terminal()
    requires a.seen.sound && a.seen.ended.None? && !a.seen.reported && !a.seen.lost && a.seen.running.None?
    ensures Reports(a.(seen := next), rounds, entry.event)
    ensures next.sound && next.ended == Some(entry.event) && next.reported == entry.delivered && next.lost == !entry.delivered
  {
    assert Of(a.seen.steps) && Of(|rounds|);
    assert Tells(a.(seen := next), rounds, entry.event);
  }

  class Turn {
    const maxSteps: nat
    const maxTurnMs: nat
    /** The conversation the turn starts from. */
    const given: seq<Item>
    const redactText: string -> string
    /** What the clock showed when the turn began. */
    const startedAt: int

    var aborted: bool
    /** Whether the heartbeat timer is set. */
    var armed: bool
    /** Every event handed to the writer, in order. */
    var log: seq<Entry>

    /** What passed between the loop and the outside: provider calls, waits, tool runs, looks at the work tree, clocks. */
    var provided: seq<ProviderCall>
    var slept: seq<int>
    var executed: seq<Execution>
    var heads: seq<Option<(string, string)>>
    var readings: seq<int>
    /** Whether nothing has been handed to the writer since the last reading. */
    var justRead: bool

    var items: seq<Item>
    var usage: Usage
    var seqNo: nat
    var steps: nat
    var finalMessage: string

    /** What a reader of the log has seen, and of that the text and how many pieces of it were lost. */
    ghost var seen: Watch
    ghost var spoken: string
    ghost var muted: nat
    ghost var rounds: seq<Round>
    ghost var exchanges: seq<Exchange>

    constructor (items: seq<Item>, notes: seq<string>, maxSteps: nat, maxTurnMs: nat, redactText: string -> string)
      ensures armed && log == [] && given == items + PrepareNoteItems(notes)
      ensures this.maxSteps == maxSteps && this.maxTurnMs == maxTurnMs && this.redactText == redactText
      ensures AtStart()
    {
      this.given, this.maxSteps, this.maxTurnMs := items + PrepareNoteItems(notes), maxSteps, maxTurnMs;
      this.redactText := redactText;
      this.aborted, this.armed, this.log := *, true, [];
      this.provided, this.slept, this.executed, this.heads := [], [], [], [];
      var now: int := *;
      this.startedAt, this.readings, this.justRead := now, [now], true;
      this.items, this.usage := items + PrepareNoteItems(notes), Usage(0, 0);
      this.seqNo, this.steps, this.finalMessage := 0, 0, "";
      this.seen, this.spoken, this.muted, this.rounds, this.exchanges := UNSEEN, "", 0, [], [];
      new;
      KeptMeans();
      CarriesAll(NO_TRAFFIC, []);
      assert Orderly(Books(), |heads|);
    }

    // -------------------------------------------------------------- what holds at every await

    ghost function Books(): Account
      reads `seen, `spoken, `muted, `steps, `seqNo, `finalMessage, `exchanges, `executed, `heads, `readings
    {
      Account(seen, spoken, muted, steps, seqNo, finalMessage, exchanges, executed, heads, readings,
              startedAt, maxSteps, maxTurnMs)
    }

    /** The channel is open, and the accounts are in order. */
    ghost predicate InStep()
      reads `armed, `log, `seen, `spoken, `muted, `steps, `seqNo, `finalMessage, `exchanges, `executed, `heads, `readings
    {
      armed && IsSeen(log, seen) && InOrder(Books(), |heads|)
    }

    ghost predicate Open()
      reads `log, `seen
    {
      IsSeen(log, seen) && seen.sound && seen.ended.None? && !seen.reported && !seen.lost
    }

    ghost predicate Kept()
      reads `items, `usage, `rounds, `exchanges
    {
      Keeps(given, items, usage, rounds, exchanges, redactText)
    }

    ghost function Carried(): Traffic
      reads `provided, `slept, `spoken, `muted
    {
      Traffic(provided, slept, spoken, muted)
    }

    /** Whatever passed between the loop and the provider belongs to a round. */
    ghost predicate Recorded()
      reads `provided, `slept, `spoken, `muted, `rounds
    {
      Carries(Carried(), rounds)
    }

    /** A failed write escaped: no event that ends the turn was delivered, and nothing was out of place before it. */
    ghost predicate Interrupted()
      reads `log, `seen, `aborted
    {
      && IsSeen(log, seen) && seen.sound && !seen.reported && seen.lost
      && (seen.ended == Some(TurnCancelled) ==> aborted)
    }

    ghost predicate AtStart()
      reads this
    {
      InStep() && Kept() && Recorded() && rounds == [] && exchanges == [] && steps == 0
    }

    // -------------------------------------------------------------- the channel

    /** Waiting for anything outside: the signal may rise and, while armed, the heartbeat may fire. */
    method Await()
      requires IsSeen(log, seen)
      modifies `log, `seen, `aborted, `justRead
      ensures old(aborted) ==> aborted
      ensures Beats(old(log), log) && (!armed ==> log == old(log))
      ensures IsSeen(log, seen) && (old(seen).ended.None? || !armed ==> seen == old(seen))
    {
      var rises: bool := *;
      aborted, justRead := aborted || rises, false;
      var beats: nat := *;
      var n := 0;
      while armed && n < beats
        invariant Beats(old(log), log) && (!armed ==> log == old(log))
        invariant IsSeen(log, seen) && (old(seen).ended.None? || !armed ==> seen == old(seen))
        invariant old(aborted) ==> aborted
      {
        var delivered: bool := *;
        var beat := Entry(Heartbeat, delivered, aborted, None);
        SeenOne(log, seen, beat);
        log, seen := log + [beat], Observe(seen, beat);
        n := n + 1;
      }
    }

    /** The entry of an event that is handed over now. */
    ghost function Now(event: AgentEvent, delivered: bool): Entry
      reads `aborted, `readings, `justRead
    {
      Entry(event, delivered, aborted, if justRead && readings != [] then Some(readings[|readings| - 1]) else None)
    }

    /** Hands an event to the writer without waiting for it. */
    method EmitDetached(event: AgentEvent) returns (delivered: bool)
      requires IsSeen(log, seen)
      modifies `log, `seen, `justRead
      ensures log == old(log) + [old(Now(event, delivered))] && !justRead
      ensures IsSeen(log, seen) && Follows(old(seen), seen, old(Now(event, delivered)))
    {
      assert Of(seen.steps);
      delivered := *;
      var reading := if justRead && readings != [] then Some(readings[|readings| - 1]) else None;
      var entry := Entry(event, delivered, aborted, reading);
      SeenOne(log, seen, entry);
      log, seen, justRead := log + [entry], Observe(seen, entry), false;
    }

    /** Hands an event to the writer and waits for its line; the exception of a failed write is the result. */
    method Emit(event: AgentEvent) returns (delivered: bool)
      requires Open() && (event.Terminal() ==> !armed)
      modifies `log, `seen, `aborted, `justRead
      ensures old(aborted) ==> aborted
      ensures Beats(old(log) + [old(Now(event, delivered))], log)
      ensures !armed ==> log == old(log) + [old(Now(event, delivered))]
      ensures IsSeen(log, seen) && Follows(old(seen), seen, old(Now(event, delivered)))
    {
      assert Of(seen.steps);
      delivered := EmitDetached(event);
      Await();
    }

    /** The heartbeat is stopped first, so that none can follow the event that ends the turn. */
    method EmitTerminal(event: AgentEvent) returns (delivered: bool)
      requires event.Terminal() && Open()
      modifies `log, `seen, `aborted, `justRead, `armed
      ensures !armed && (old(aborted) ==> aborted)
      ensures log == old(log) + [old(Now(event, delivered))]
      ensures IsSeen(log, seen) && Follows(old(seen), seen, old(Now(event, delivered)))
    {
      armed := false;
      delivered := Emit(event);
    }

    method ReadClock() returns (ms: int)
      modifies `readings, `justRead
      ensures readings == old(readings) + [ms] && justRead
      ensures old(readings) <= readings
    {
      ms := *;
      readings, justRead := readings + [ms], true;
    }

    method AwaitInStep()
      requires InStep()
      modifies `log, `seen, `aborted, `justRead
      ensures InStep() && (old(aborted) ==> aborted)
    {
      OpenInOrder(Books(), |heads|);
      Await();
    }

    // -------------------------------------------------------------- the model

    method Stream(snapshot: seq<Item>) returns (stream: ModelStream)
      modifies `provided
      ensures provided == old(provided) + [ProviderCall(snapshot, stream, aborted)]
    {
      stream := *;
      provided := provided + [ProviderCall(snapshot, stream, aborted)];
    }

    /** Streams on a piece of text. */
    method EmitDelta(text: string) returns (delivered: bool)
      requires InStep()
      modifies `log, `seen, `aborted, `justRead, `spoken, `muted
      ensures InStep() && (old(aborted) ==> aborted)
      ensures spoken == old(spoken) + text && muted == old(muted) + if delivered then 0 else 1
    {
      OpenInOrder(Books(), |heads|);
      ghost var before := Books();
      delivered := Emit(AssistantDelta(text));
      DeltaInOrder(before, |heads|, seen, old(Now(AssistantDelta(text), delivered)), text);
      spoken, muted := spoken + text, muted + if delivered then 0 else 1;
    }

    /** Takes in one event; an error, or the exception of a failed write, ends the attempt. */
    method Take(event: ModelEvent, sofar: Gathered) returns (now: Gathered, ended: Option<ModelOutcome>)
      requires InStep()
      modifies `log, `seen, `aborted, `justRead, `spoken, `muted
      ensures InStep() && (old(aborted) ==> aborted)
      ensures spoken == old(spoken) + DeltaOf(event)
      ensures muted == old(muted) + if ended.Some? && !event.ModelError? then 1 else 0
      ensures ended.None? ==> !event.ModelError? && now == Absorb(sofar, event)
      ensures ended.Some? && !event.ModelError? ==> event.TextDelta? && ended.value.Error? && ended.value.code == "unknown"
      ensures event.ModelError? ==> ended == Some(Error(event.code, event.message))
    {
      now, ended := sofar, None;
      assert spoken + "" == spoken;
      match event {
        case TextDelta(text) =>
          now := sofar.(text := sofar.text + text);
          var delivered := EmitDelta(text);
          if !delivered {
            var reason: string := *;
            ended := Some(Error("unknown", reason));
          }
        case TextDone(text) => now := sofar.(text := text);
        case CallAsked(call) => now := sofar.(toolCalls := sofar.toolCalls + [call]);
        case CallArgumentsDelta =>
        case ResponseDone(tokens) => now := sofar.(usage := Some(tokens));
        case ModelError(code, message) => ended := Some(Error(code, message));
      }
    }

    /** Reads a stream; only an abort, or a lost line, changes what it says. */
    method Consume(stream: ModelStream) returns (outcome: ModelOutcome, ghost heard: nat, ghost cut: bool)
      requires InStep()
      modifies `log, `seen, `aborted, `justRead, `spoken, `muted
      ensures InStep() && (old(aborted) ==> aborted)
      ensures Hears(stream, heard, cut, outcome)
      ensures heard <= |stream.events| && spoken == old(spoken) + DeltaText(stream.events[..heard])
      ensures muted == old(muted) + if cut then 1 else 0
      ensures outcome.Cancelled? ==> aborted
      ensures !cut && RunsOut(stream) ==> (outcome.Cancelled? <==> aborted)
    {
      var sofar, ended := NOTHING_YET, None;
      heard, cut := 0, false;
      ReadingBegins(stream, spoken);
      for i := 0 to |stream.events|
        invariant InStep() && (old(aborted) ==> aborted)
        invariant Reading(stream, i, sofar, old(spoken), spoken) && muted == old(muted)
      {
        AwaitInStep();
        ReadingNext(stream, i, sofar, old(spoken), spoken);
        sofar, ended := Take(stream.events[i], sofar);
        if ended.Some? {
          heard, cut := i + 1, !stream.events[i].ModelError?;
          return ended.value, heard, cut;
        }
      }
      heard := |stream.events|;
      ReadingEnds(stream, sofar, old(spoken), spoken);
      AwaitInStep();
      if stream.exception.Some? {
        outcome := Error("unknown", stream.exception.value);
      } else if aborted {
        outcome := Cancelled;
      } else if sofar.usage.None? {
        outcome := Error("unknown", "model stream ended without response.done");
      } else {
        outcome := Ok(sofar.text, sofar.toolCalls, sofar.usage.value);
      }
    }

    /** One provider call, shown a copy of the conversation. */
    method StreamAttempt() returns (outcome: ModelOutcome, ghost attempt: Attempt)
      requires InStep()
      modifies `log, `seen, `aborted, `justRead, `spoken, `muted, `provided
      ensures InStep() && (old(aborted) ==> aborted)
      ensures attempt.outcome == outcome && Attempted(attempt, items, if old(aborted) then 0 else 1)
      ensures Carried() == PlusOne(old(Carried()), attempt)
      ensures outcome.Cancelled? ==> aborted
    {
      ghost var up := aborted;
      var stream := Stream(items);
      ghost var heard: nat, cut: bool;
      outcome, heard, cut := Consume(stream);
      attempt := Attempt(ProviderCall(items, stream, up), heard, cut, outcome);
      assert Hears(attempt.call.stream, attempt.heard, attempt.muted, attempt.outcome);
    }

    method Sleep(ms: int)
      requires InStep()
      modifies `log, `seen, `aborted, `justRead, `slept
      ensures InStep() && (old(aborted) ==> aborted)
      ensures slept == old(slept) + [ms]
    {
      slept := slept + [ms];
      AwaitInStep();
    }

    /** Waits after a rate limit. */
    method BackOff(attempt: nat, ghost start: Traffic, ghost before: Traffic, ghost limited: seq<Attempt>,
                   ghost sleeps: seq<int>, ghost last: Attempt)
      requires InStep() && attempt == |limited| + 1
      requires Trying(start, before, limited, sleeps, items) && Attempted(last, items, |limited|)
      requires RateLimited(last.outcome) && Carried() == PlusOne(before, last)
      modifies `log, `seen, `aborted, `justRead, `slept
      ensures InStep() && (old(aborted) ==> aborted)
      ensures Trying(start, Carried(), limited + [last], sleeps + [Backoff(attempt)], items)
    {
      TryingGoesOn(start, before, limited, sleeps, items, last);
      Sleep(Backoff(attempt));
    }

    method RunModelStep() returns (outcome: ModelOutcome, ghost round: Round)
      requires InStep()
      modifies `log, `seen, `aborted, `justRead, `spoken, `muted, `provided, `slept, `rounds
      ensures InStep() && (old(aborted) ==> aborted)
      ensures outcome.Cancelled? ==> aborted
      ensures rounds == old(rounds) + [round] && round.outcome == outcome
      ensures Retried(round, items) && Carried() == PlusRound(old(Carried()), round)
    {
      var attempt := 1;
      ghost var limited: seq<Attempt> := [];
      ghost var sleeps: seq<int> := [];
      TryingBegins(Carried(), items);
      while true
        invariant 1 <= attempt <= MAX_MODEL_ATTEMPTS && |limited| == attempt - 1 && (attempt > 1 ==> !aborted)
        invariant InStep() && (old(aborted) ==> aborted) && rounds == old(rounds)
        invariant Trying(old(Carried()), Carried(), limited, sleeps, items)
        decreases MAX_MODEL_ATTEMPTS - attempt
      {
        ghost var last: Attempt, before := *, Carried();
        outcome, last := StreamAttempt();
        if !outcome.Error? || outcome.code != "rate_limit" || attempt >= MAX_MODEL_ATTEMPTS {
          TryingEnds(old(Carried()), before, limited, sleeps, items, last);
          round := Round(limited, last, sleeps, outcome);
          break;
        }
        BackOff(attempt, old(Carried()), before, limited, sleeps, last);
        sleeps := sleeps + [Backoff(attempt)];
        if aborted {
          TryingStops(old(Carried()), Carried(), limited, sleeps, items, last);
          outcome := Cancelled;
          round := Round(limited, last, sleeps, outcome);
          break;
        }
        limited := limited + [last];
        attempt := attempt + 1;
      }
      rounds := rounds + [round];
    }

    // -------------------------------------------------------------- the tools

    /** What the tools answer to a call; one they do not know runs nothing, and none raises. */
    method Tool(call: RequestedToolCall) returns (result: ToolExecutionResult)
      modifies `executed
      ensures executed == old(executed) + [Execution(call, result)]
      ensures call.name !in TOOL_NAMES ==> result == UnknownTool()
      ensures call.name != "run_shell" ==> result.streamed == [] && result.command.None?
    {
      result := *;
      if call.name !in TOOL_NAMES {
        result := UnknownTool();
      } else if call.name != "run_shell" {
        result := result.(streamed := [], command := None);
      }
      executed := executed + [Execution(call, result)];
    }

    /** Runs a tool, showing what it streams. */
    method Execute(call: RequestedToolCall) returns (streamed: bool, result: ToolExecutionResult)
      requires Open() && (call.name in TOOL_NAMES ==> RunsAs(seen.running, call.callId))
      modifies `log, `seen, `aborted, `justRead, `executed
      ensures IsSeen(log, seen) && (old(aborted) ==> aborted)
      ensures executed == old(executed) + [Execution(call, result)]
      ensures seen == old(seen).(output := old(seen).output + result.streamed) && streamed == (result.streamed != [])
      ensures call.name !in TOOL_NAMES ==> result == UnknownTool()
    {
      assert Of(seen.steps);
      Await();
      result := Tool(call);
      var chunks := result.streamed;
      assert call.name !in TOOL_NAMES ==> chunks == [];
      assert seen.output + chunks[..0] == seen.output;
      for i := 0 to |chunks|
        invariant executed == old(executed) + [Execution(call, result)]
        invariant Open() && (old(aborted) ==> aborted)
        invariant seen == old(seen).(output := old(seen).output + chunks[..i])
      {
        OutputNext(old(seen).output, chunks, i);
        var _ := EmitDetached(ToolOutputDelta(call.callId, chunks[i].0, chunks[i].1));
        Await();
      }
      assert chunks[..|chunks|] == chunks;
      streamed := |chunks| > 0;
    }

    /** The commit a push landed on, if the work tree can be read. */
    method ResolveGitHead() returns (head: Option<(string, string)>)
      requires IsSeen(log, seen)
      modifies `log, `seen, `aborted, `justRead, `heads
      ensures old(aborted) ==> aborted
      ensures IsSeen(log, seen) && (old(seen).ended.None? ==> seen == old(seen))
      ensures heads == old(heads) + [head]
    {
      Await();
      head := *;
      heads := heads + [head];
    }

    /** Looks up where a push landed, and announces it. */
    method MaybeEmitGitPushed(result: ToolExecutionResult) returns (threw: bool)
      requires armed && IsSeen(log, seen) && InOrder(Books(), |heads| + if Pushed(result) then 1 else 0)
      modifies `log, `seen, `aborted, `justRead, `heads
      ensures old(aborted) ==> aborted
      ensures if threw then Interrupted() else InStep()
    {
      if result.command.None? || !Pushed(result) {
        return false;
      }
      ghost var before := Books();
      OpenInOrder(before, |heads| + 1);
      var head := ResolveGitHead();
      if head.None? {
        NoPushInOrder(before, |heads|);
        return false;
      }
      ghost var entry := Now(GitPushed(head.value.0, head.value.1), true);
      var delivered := Emit(GitPushed(head.value.0, head.value.1));
      if delivered {
        PushInOrder(before, |heads|, seen, entry, head.value);
      } else {
        LossIsSeen(before.seen, seen, entry.(delivered := false));
      }
      threw := !delivered;
    }

    /** Shows a known call's output in one piece if it did not stream. */
    method ShowOutput(call: RequestedToolCall, streamed: bool, result: ToolExecutionResult)
      requires Open() && RunsAs(seen.running, call.callId)
      requires seen.output == result.streamed && streamed == (result.streamed != [])
      modifies `log, `seen, `justRead
      ensures Open() && seen == old(seen).(output := ShownOutput(result))
    {
      if !streamed && result.output != "" {
        assert Of(seen.steps);
        var stream := if result.status == Succeeded then Stdout else Stderr;
        var _ := EmitDetached(ToolOutputDelta(call.callId, stream, result.output));
      }
    }

    /** Shows a known call's output if it did not stream, then its result. */
    method ShowResult(call: RequestedToolCall, began: int, streamed: bool, result: ToolExecutionResult)
      returns (threw: bool, ghost shown: Finished)
      requires Open() && RunsAs(seen.running, call.callId) && InTime(seen.times, readings, startedAt, maxTurnMs)
      requires seen.output == result.streamed && streamed == (result.streamed != [])
      requires seen.running.value.name == call.name && seen.running.value.arguments == call.arguments
      modifies `log, `seen, `aborted, `justRead, `readings
      ensures old(aborted) ==> aborted
      ensures Shows(shown, call, result) && (threw ==> Interrupted())
      ensures |readings| == |old(readings)| + 1 && old(readings) <= readings
      ensures shown.result.durationMs == Elapsed(began, readings[|old(readings)|])
      ensures !threw ==> IsSeen(log, seen) && InTime(seen.times, readings, startedAt, maxTurnMs)
      ensures !threw ==>
        seen == old(seen).(running := None, output := shown.output, finished := old(seen).finished + [shown])
    {
      ShowOutput(call, streamed, result);
      var finishedAt := ReadClock();
      assert Of(seen.steps);
      var event := ToolResult(call.callId, result.exitCode, result.bytes, Elapsed(began, finishedAt), result.status);
      shown := Finished(seen.running.value, event, seen.output);
      var delivered := Emit(event);
      threw := !delivered;
    }

    method ExecuteKnown(call: RequestedToolCall) returns (threw: bool, result: ToolExecutionResult, ghost shown: Finished)
      requires InStep() && !aborted && call.name in TOOL_NAMES
      modifies `log, `seen, `aborted, `justRead, `readings, `executed, `seqNo
      ensures old(aborted) ==> aborted
      ensures threw ==> Interrupted()
      ensures !threw ==> Shows(shown, call, result) && IsSeen(log, seen) && seqNo == old(seqNo) + 1
      ensures !threw ==> InTime(seen.times, readings, startedAt, maxTurnMs)
      ensures !threw ==> executed == old(executed) + [Execution(call, result)]
      ensures !threw ==> |readings| == |old(readings)| + 2 && shown.result.ToolResult?
      ensures !threw ==> shown.result.durationMs == Elapsed(readings[|old(readings)|], readings[|old(readings)| + 1])
      ensures !threw ==>
        seen == old(seen).(calls := seqNo, output := shown.output, finished := old(seen).finished + [shown])
    {
      assert Of(seen.steps);
      assert Of(|heads|);
      seqNo := seqNo + 1;
      var announced := Emit(ToolCall(call.callId, call.name, call.arguments, seqNo));
      if !announced {
        result, shown := UnknownTool(), Finished(Heartbeat, Heartbeat, []);
        return true, result, shown;
      }
      var began := ReadClock();
      var streamed: bool;
      streamed, result := Execute(call);
      assert [] + result.streamed == result.streamed;
      threw, shown := ShowResult(call, began, streamed, result);
    }

    /** Adds a call and its redacted result to the conversation. */
    method Record(call: RequestedToolCall, result: ToolExecutionResult)
      requires Kept()
      modifies `items, `exchanges
      ensures Kept() && exchanges == old(exchanges) + [Ran(call, result)]
    {
      var pair := [ToolCallItem(call.callId, call.name, call.arguments),
                   ToolResultItem(call.callId, redactText(result.output))];
      KeepsExchange(given, items, usage, rounds, exchanges, redactText, Ran(call, result));
      items := items + pair;
      exchanges := exchanges + [Ran(call, result)];
    }

    /** Adds a message of the model, whose line was delivered last, to the conversation. */
    method Remember(text: string, ghost before: Account, ghost entry: Entry)
      requires armed && IsSeen(log, seen) && Kept() && Books() == before.(seen := seen) && InOrder(before, |heads|)
      requires Follows(before.seen, seen, entry) && entry.event == AssistantMessage(text) && entry.delivered
      modifies `items, `exchanges, `finalMessage
      ensures InStep() && Kept() && exchanges == old(exchanges) + [Said(text)]
    {
      KeepsExchange(given, items, usage, rounds, exchanges, redactText, Said(text));
      MessageInOrder(before, |heads|, seen, entry, text);
      items := items + [Message(Assistant, text)];
      exchanges := exchanges + [Said(text)];
      finalMessage := text;
    }

    method ExecuteShown(call: RequestedToolCall) returns (threw: bool, result: ToolExecutionResult)
      requires InStep() && !aborted
      modifies `log, `seen, `aborted, `justRead, `readings, `executed, `seqNo
      ensures old(aborted) ==> aborted
      ensures threw ==> Interrupted()
      ensures !threw ==> IsSeen(log, seen) && seqNo == |seen.finished| && InTime(seen.times, readings, startedAt, maxTurnMs)
      ensures !threw ==> Reflects(seen.finished, executed, |heads| + if Pushed(result) then 1 else 0, seen.messages,
                                  exchanges + [Ran(call, result)])
      ensures !threw ==> seen == old(seen).(calls := seqNo, output := seen.output, finished := seen.finished)
    {
      assert Of(|heads|);
      ghost var before, done, shown := seen, executed, [];
      if call.name in TOOL_NAMES {
        ghost var one: Finished;
        threw, result, one := ExecuteKnown(call);
        if threw {
          return;
        }
        shown := [one];
      } else {
        threw := false;
        var _ := ReadClock();
        var _, failed := Execute(call);
        result := failed;
      }
      ReflectsRan(before.finished, done, |heads|, before.messages, exchanges, call, result, shown);
      assert before.finished + [] == before.finished;
    }

    method RunToolCall(call: RequestedToolCall) returns (threw: bool, ghost ran: bool, result: ToolExecutionResult)
      requires !aborted && InStep() && Kept()
      modifies `log, `seen, `aborted, `justRead, `readings, `executed, `heads, `items, `seqNo, `exchanges
      ensures old(aborted) ==> aborted
      ensures Kept() && exchanges == old(exchanges) + if ran then [Ran(call, result)] else []
      ensures if threw then Interrupted() else InStep() && ran
    {
      assert Of(|heads|);
      ran := false;
      threw, result := ExecuteShown(call);
      if threw {
        return;
      }
      Record(call, result);
      ran := true;
      assert Orderly(Books(), |heads| + if Pushed(result) then 1 else 0);
      threw := MaybeEmitGitPushed(result);
    }

    method RunToolCalls(calls: seq<RequestedToolCall>) returns (threw: bool, cancelled: bool, ghost pending: seq<Request>)
      requires InStep() && Kept() && Owes(exchanges, rounds, Calls(calls))
      modifies `log, `seen, `aborted, `justRead, `readings, `executed, `heads, `items, `seqNo, `exchanges
      ensures old(aborted) ==> aborted
      ensures Kept() && Owes(exchanges, rounds, pending)
      ensures if threw then Interrupted() else InStep() && cancelled == aborted && (!cancelled ==> pending == [])
    {
      threw, pending := false, Calls(calls);
      var i := 0;
      while i < |calls| && !aborted && !threw
        invariant i <= |calls| && Kept() && (old(aborted) ==> aborted)
        invariant if threw then Interrupted() else InStep()
        invariant Owes(exchanges, rounds, pending) && (!threw ==> pending == Calls(calls[i..]))
      {
        ghost var before := exchanges;
        ghost var ran: bool, result: ToolExecutionResult;
        threw, ran, result := RunToolCall(calls[i]);
        assert calls[i..][1..] == calls[i + 1..];
        if ran {
          OwesRan(before, rounds, calls[i..], result);
          pending := Calls(calls[i + 1..]);
        } else {
          assert before == exchanges;
        }
        i := i + 1;
      }
      cancelled := aborted;
    }

    // -------------------------------------------------------------- how a turn ends

    /** The turn has ended: its last event, and no other, is terminal, was delivered, and fits the outcome. */
    ghost predicate Concluded(outcome: LoopOutcome)
      reads this
    {
      && !armed && IsSeen(log, seen) && seen.sound && seen.reported && !seen.lost
      && seen.ended.Some? && EndsAs(seen.ended.value, outcome) && Reports(Books(), rounds, seen.ended.value)
      && (outcome.CancelledTurn? ==> aborted)
    }

    ghost predicate Leaves(end: StepEnd)
      reads this
    {
      match end
      case GoOn => InStep() && |rounds| == steps && Owes(exchanges, rounds, []) && AsksOn(rounds)
      case Ended(outcome) => Concluded(outcome)
      case Threw => Interrupted()
    }

    method End(event: AgentEvent, outcome: LoopOutcome) returns (end: StepEnd)
      requires Open() && seen.running.None? && Reports(Books(), rounds, event)
      requires EndsAs(event, outcome) && (outcome.CancelledTurn? ==> aborted)
      modifies `log, `seen, `aborted, `justRead, `armed
      ensures !end.GoOn? && Leaves(end)
    {
      ghost var before, entry := Books(), Now(event, true);
      var delivered := EmitTerminal(event);
      EndReports(before, rounds, seen, entry.(delivered := delivered));
      end := if delivered then Ended(outcome) else Threw;
    }

    lemma KeptMeans()
      ensures Kept() <==> && items == given + Render(exchanges, redactText) && usage == Spent(rounds)
                          && Faithful(given, rounds, exchanges, redactText)
    {
      KeepsAll(given, items, usage, rounds, exchanges, redactText);
    }

    /** Says that a limit was reached; the event that ends the turn may follow. */
    method SayLimit(text: string, ghost limit: AgentEvent) returns (delivered: bool)
      requires InStep() && |rounds| == steps && AsksOn(rounds) && Owes(exchanges, rounds, []) && usage == Spent(rounds)
      requires steps == maxSteps || TimeUp(readings, startedAt, maxTurnMs)
      requires text == LimitMessage(steps, maxTurnMs, finalMessage) && limit == TurnCompleted(usage, steps, text, true)
      modifies `log, `seen, `aborted, `justRead, `finalMessage
      ensures if delivered then Open() && seen.running.None? && Reports(Books(), rounds, limit) else Interrupted()
      ensures delivered ==> finalMessage == text
    {
      ghost var before, entry := Books(), Now(AssistantMessage(text), true);
      OpenInOrder(before, |heads|);
      delivered := Emit(AssistantMessage(text));
      if delivered {
        LimitTells(before, rounds, seen, entry, usage);
        finalMessage := text;
      } else {
        LossIsSeen(before.seen, seen, entry.(delivered := false));
      }
    }

    method StopForLimit() returns (end: StepEnd)
      requires steps == maxSteps || TimeUp(readings, startedAt, maxTurnMs)
      requires Kept() && Leaves(GoOn)
      modifies `log, `seen, `aborted, `justRead, `armed, `finalMessage
      ensures !end.GoOn? && Leaves(end)
    {
      KeptMeans();
      var text := LimitMessage(steps, maxTurnMs, finalMessage);
      var delivered := SayLimit(text, TurnCompleted(usage, steps, text, true));
      if delivered {
        end := End(TurnCompleted(usage, steps, text, true), CompletedTurn);
      } else {
        end := Threw;
      }
    }

    method CancelTurn() returns (end: StepEnd)
      requires InStep() && |rounds| == steps && aborted
      requires AsksOn(rounds) || rounds[|rounds| - 1].outcome == Cancelled
      modifies `log, `seen, `aborted, `justRead, `armed
      ensures !end.GoOn? && Leaves(end)
    {
      assert Of(|heads|);
      assert Tells(Books(), rounds, TurnCancelled);
      end := End(TurnCancelled, CancelledTurn);
    }

    method CompleteTurn() returns (end: StepEnd)
      requires InStep() && Kept() && |rounds| == steps > 0
      requires rounds[steps - 1].outcome.Ok? && rounds[steps - 1].outcome.toolCalls == [] && Owes(exchanges, rounds, [])
      modifies `log, `seen, `aborted, `justRead, `armed
      ensures !end.GoOn? && Leaves(end)
    {
      assert Of(|heads|);
      KeptMeans();
      assert Tells(Books(), rounds, TurnCompleted(usage, steps, finalMessage, false));
      end := End(TurnCompleted(usage, steps, finalMessage, false), CompletedTurn);
    }

    method FailTurn(code: string, message: string) returns (end: StepEnd)
      requires InStep() && |rounds| == steps > 0 && rounds[steps - 1].outcome == Error(code, message)
      modifies `log, `seen, `aborted, `justRead, `armed
      ensures !end.GoOn? && Leaves(end)
    {
      assert Of(|heads|);
      assert Tells(Books(), rounds, TurnFailed(code, message));
      end := End(TurnFailed(code, message), FailedTurn(code));
    }

    method Say(text: string) returns (threw: bool)
      requires InStep() && Kept()
      modifies `log, `seen, `aborted, `justRead, `items, `finalMessage, `exchanges
      ensures old(aborted) ==> aborted
      ensures Kept() && exchanges == old(exchanges) + if threw then [] else [Said(text)]
      ensures if threw then Interrupted() else InStep()
    {
      ghost var before, entry := Books(), Now(AssistantMessage(text), true);
      OpenInOrder(before, |heads|);
      var delivered := Emit(AssistantMessage(text));
      if !delivered {
        LossIsSeen(before.seen, seen, entry.(delivered := false));
        return true;
      }
      Remember(text, before, entry);
      threw := false;
    }

    /** Says the text of an answer if it has any; the calls it asks for are then what is pending. */
    method SayAnswer(text: string, ghost calls: seq<Request>) returns (threw: bool)
      requires InStep() && Kept() && Owes(exchanges, rounds, (if text == "" then [] else [Request.Say(text)]) + calls)
      modifies `log, `seen, `aborted, `justRead, `items, `finalMessage, `exchanges
      ensures Kept()
      ensures if threw then Interrupted() && exchanges == old(exchanges) else InStep() && Owes(exchanges, rounds, calls)
    {
      if text == "" {
        assert [] + calls == calls;
        return false;
      }
      threw := Say(text);
      if !threw {
        OwesSaid(old(exchanges), rounds, text, calls);
      }
    }

    /** Runs the tools an answer asked for; without any the turn is complete. */
    method ServeCalls(toolCalls: seq<RequestedToolCall>) returns (end: StepEnd, ghost pending: seq<Request>)
      requires InStep() && Kept() && |rounds| == steps > 0
      requires rounds[steps - 1].outcome.Ok? && rounds[steps - 1].outcome.toolCalls == toolCalls
      requires Owes(exchanges, rounds, Calls(toolCalls))
      modifies `log, `seen, `aborted, `justRead, `readings, `executed, `heads, `armed, `items, `seqNo, `exchanges
      ensures Kept() && Owes(exchanges, rounds, pending)
      ensures Leaves(end)
    {
      if |toolCalls| == 0 {
        pending := [];
        assert Calls(toolCalls) == [];
        end := CompleteTurn();
        return;
      }
      var threw, cancelled: bool;
      threw, cancelled, pending := RunToolCalls(toolCalls);
      if threw {
        end := Threw;
      } else if cancelled {
        end := CancelTurn();
      } else {
        end := GoOn;
      }
    }

    /** Says what the model answered and runs the tools it asked for. */
    method ActOn(text: string, toolCalls: seq<RequestedToolCall>)
      returns (end: StepEnd, ghost pending: seq<Request>)
      requires InStep() && Kept() && |rounds| == steps > 0
      requires rounds[steps - 1].outcome.Ok? && rounds[steps - 1].outcome.toolCalls == toolCalls
      requires rounds[steps - 1].outcome.text == text && Owes(exchanges, rounds, Wishes(rounds[steps - 1].outcome))
      modifies `log, `seen, `aborted, `justRead, `readings, `executed, `heads, `armed, `items, `seqNo, `finalMessage, `exchanges
      ensures Kept() && Owes(exchanges, rounds, pending)
      ensures Leaves(end)
    {
      pending := Wishes(rounds[steps - 1].outcome);
      var threw := SayAnswer(text, Calls(toolCalls));
      if threw {
        end := Threw;
      } else {
        end, pending := ServeCalls(toolCalls);
      }
    }

    /** Asks the model, and takes down what it answered. */
    method AskModel() returns (outcome: ModelOutcome)
      requires InStep() && Kept() && Recorded() && |rounds| + 1 == steps && Owes(exchanges, rounds, [])
      modifies `log, `seen, `aborted, `justRead, `spoken, `muted, `provided, `slept, `usage, `rounds
      ensures InStep() && Kept() && Recorded() && (outcome.Cancelled? ==> aborted)
      ensures |rounds| == steps && rounds[steps - 1].outcome == outcome && Owes(exchanges, rounds, Wishes(outcome))
    {
      ghost var round: Round;
      outcome, round := RunModelStep();
      CarriesNext(old(Carried()), old(rounds), round);
      OwesRound(exchanges, old(rounds), round);
      KeepsRound(given, items, usage, old(rounds), exchanges, redactText, round);
      if outcome.Ok? {
        var tokens := outcome.usage;
        usage := Usage(usage.inputTokens + tokens.inputTokens, usage.outputTokens + tokens.outputTokens);
      }
    }

    method RunStep() returns (end: StepEnd, ghost pending: seq<Request>)
      requires InStep() && Kept() && Recorded() && |rounds| + 1 == steps && Owes(exchanges, rounds, [])
      modifies `log, `seen, `aborted, `justRead, `spoken, `muted, `provided, `slept, `readings, `executed, `heads, `armed
      modifies `items, `usage, `seqNo, `finalMessage, `exchanges, `rounds
      ensures Kept() && Recorded() && Owes(exchanges, rounds, pending) && |rounds| <= steps
      ensures Leaves(end)
    {
      var outcome := AskModel();
      pending := Wishes(outcome);
      match outcome {
        case Cancelled => end := CancelTurn();
        case Error(code, message) => end := FailTurn(code, message);
        case Ok(text, toolCalls, _) => end, pending := ActOn(text, toolCalls);
      }
    }

    /** Counts the step whose line was delivered last. */
    method CountStep(step: nat, ghost before: Account, ghost entry: Entry)
      requires armed && IsSeen(log, seen) && Books() == before.(seen := seen) && InOrder(before, |heads|)
      requires Follows(before.seen, seen, entry) && entry.event == StepStarted(step) && entry.delivered
      requires step == steps + 1 && !entry.aborted && entry.reading.Some? && entry.reading.value - startedAt < maxTurnMs
      modifies `steps
      ensures InStep() && steps == step
    {
      StepInOrder(before, |heads|, seen, entry);
      steps := step;
    }

    /** Announces a step while the signal is down, on a reading of the clock before the limit, and counts it. */
    method AnnounceStep(step: nat) returns (delivered: bool)
      requires !aborted && justRead && !TimeUp(readings, startedAt, maxTurnMs) && InStep() && step == steps + 1
      modifies `log, `seen, `aborted, `justRead, `steps
      ensures if delivered then InStep() && steps == step else Interrupted() && steps == old(steps)
    {
      ghost var before, entry := Books(), Now(StepStarted(step), true);
      OpenInOrder(before, |heads|);
      delivered := Emit(StepStarted(step));
      if delivered {
        CountStep(step, before, entry);
      } else {
        LossIsSeen(before.seen, seen, entry.(delivered := false));
      }
    }

    method BeginStep(step: nat) returns (end: StepEnd, ghost pending: seq<Request>)
      requires !aborted && justRead && !TimeUp(readings, startedAt, maxTurnMs) && step <= maxSteps
      requires Kept() && Recorded() && Leaves(GoOn) && step == steps + 1
      modifies `log, `seen, `aborted, `justRead, `spoken, `muted, `provided, `slept, `readings, `executed, `heads, `armed
      modifies `items, `usage, `seqNo, `steps, `finalMessage, `exchanges, `rounds
      ensures Kept() && Recorded() && Owes(exchanges, rounds, pending) && Leaves(end)
      ensures steps <= step && |rounds| <= steps && (end.GoOn? ==> steps == step)
    {
      pending := [];
      var delivered := AnnounceStep(step);
      if delivered {
        end, pending := RunStep();
      } else {
        end := Threw;
      }
    }

    method CheckClock() returns (now: int)
      requires InStep()
      modifies `readings, `justRead
      ensures InStep() && readings == old(readings) + [now] && justRead
    {
      ghost var before := Books();
      now := ReadClock();
      ReadInOrder(before, |heads|, now);
    }

    /** Looks at the signal and the clock, and begins a step unless the turn is over. */
    method NextStep(step: nat) returns (end: StepEnd, ghost pending: seq<Request>)
      requires step <= maxSteps && Kept() && Recorded() && Leaves(GoOn) && step == steps + 1
      modifies `log, `seen, `aborted, `justRead, `spoken, `muted, `provided, `slept, `readings, `executed, `heads, `armed
      modifies `items, `usage, `seqNo, `steps, `finalMessage, `exchanges, `rounds
      ensures Kept() && Recorded() && Owes(exchanges, rounds, pending) && Leaves(end)
      ensures steps <= step && |rounds| <= steps && (end.GoOn? ==> steps == step)
    {
      pending := [];
      if aborted {
        end := CancelTurn();
        return;
      }
      var now := CheckClock();
      if now - startedAt >= maxTurnMs {
        end := StopForLimit();
      } else {
        end, pending := BeginStep(step);
      }
    }

    method RunSteps() returns (end: StepEnd, ghost pending: seq<Request>)
      requires AtStart()
      modifies `log, `seen, `aborted, `justRead, `spoken, `muted, `provided, `slept, `readings, `executed, `heads, `armed
      modifies `items, `usage, `seqNo, `steps, `finalMessage, `exchanges, `rounds
      ensures Kept() && Recorded() && Owes(exchanges, rounds, pending)
      ensures steps <= maxSteps && |rounds| <= steps
      ensures !end.GoOn? && Leaves(end)
    {
      end, pending := GoOn, [];
      var step := 1;
      while step <= maxSteps && end.GoOn?
        invariant steps <= maxSteps && |rounds| <= steps && (end.GoOn? ==> step == steps + 1)
        invariant Kept() && Recorded() && Owes(exchanges, rounds, pending) && Leaves(end)
        decreases maxSteps + 1 - step, end.GoOn?
      {
        end, pending := NextStep(step);
        step := step + 1;
      }
      if end.GoOn? {
        end := StopForLimit();
      }
    }

    /** One turn. It returns an outcome, or the exception of a failed write escapes; either way the heartbeat is off. */
    method Run() returns (end: StepEnd, ghost pending: seq<Request>)
      requires AtStart()
      modifies this
      ensures Kept() && Recorded() && Owes(exchanges, rounds, pending)
      ensures steps <= maxSteps && |rounds| <= steps
      ensures !armed && !end.GoOn? && Leaves(end)
    {
      end, pending := RunSteps();
      armed := false;
    }
  }

  // ---------------------------------------------------------------- what the verdicts mean

  /** A turn that returned has delivered one terminal event, its last, which fits the outcome. */
  lemma OneOutcome(turn: Turn, outcome: LoopOutcome)
    requires turn.Concluded(outcome)
    ensures var log, n := turn.log, |turn.log| - 1;
      && n >= 0 && log[n].delivered && log[n].event.Terminal() && EndsAs(log[n].event, outcome)
      && (forall i :: 0 <= i < n ==> !log[i].event.Terminal())
      && (log[n].event.TurnCancelled? ==> turn.aborted)
      && StepNumbers(log) == CountingUp(turn.steps)
      && (log[n].event.TurnCompleted? ==>
            && log[n].event.steps == turn.steps && log[n].event.usage == Spent(turn.rounds)
            && log[n].event.finalMessage == LastOf(MessageTexts(log)))
  {
    assert Of(|turn.rounds|);
    var log := turn.log;
    assert Seen(log) == turn.seen;
    OneEndAndLast(log);
    NumbersCountUp(log);
    MessagesInOrder(log);
  }

  /** When an exception escapes, no terminal event was delivered, and at most the last event is one. */
  lemma NoOutcome(turn: Turn)
    requires turn.Interrupted()
    ensures forall i :: 0 <= i < |turn.log| && turn.log[i].event.Terminal() ==> !turn.log[i].delivered && i == |turn.log| - 1
  {
    assert Seen(turn.log) == turn.seen;
    OneEndAndLast(turn.log);
  }

  /** A turn returns exactly if no line that it waits for was lost, and an exception escapes only after one was. */
  lemma LostLinesEscape(turn: Turn, end: StepEnd)
    requires !end.GoOn? && turn.Leaves(end)
    ensures end.Threw? <==> exists i :: 0 <= i < |turn.log| && Awaited(turn.log[i].event) && !turn.log[i].delivered
  {
    assert Seen(turn.log) == turn.seen;
    LostLines(turn.log);
  }

  /**
   * Why a turn ended, by what the model answered last. A failure, an answer that asks for nothing and a
   * cancellation end the turn as such. One that still asks for tools ends it for the limit, or because it was
   * aborted; if it was not, and the clock shows time left, all steps were taken.
   */
  lemma StopsForAReason(turn: Turn, outcome: LoopOutcome)
    requires turn.Concluded(outcome)
    ensures |turn.log| > 0
    ensures var event := turn.log[|turn.log| - 1].event;
      && (event.TurnCompleted? && event.byLimit ==>
            && AsksOn(turn.rounds)
            && (turn.steps == turn.maxSteps || TimeUp(turn.readings, turn.startedAt, turn.maxTurnMs)))
      && (AsksOn(turn.rounds) ==> (event.TurnCompleted? && event.byLimit) || (event.TurnCancelled? && turn.aborted))
      && (AsksOn(turn.rounds) && !turn.aborted && !TimeUp(turn.readings, turn.startedAt, turn.maxTurnMs) ==>
            turn.steps == turn.maxSteps)
      && (!AsksOn(turn.rounds) ==>
            match turn.rounds[|turn.rounds| - 1].outcome
            case Ok(_, _, _) => event.TurnCompleted? && !event.byLimit
            case Cancelled => event.TurnCancelled?
            case Error(code, message) => event == TurnFailed(code, message))
  {
    assert Of(|turn.rounds|);
    assert Seen(turn.log) == turn.seen;
    OneEndAndLast(turn.log);
  }

  /** Every step began while the signal was down, on a reading before the limit; every call while it was down. */
  lemma BegunInTime(turn: Turn, outcome: LoopOutcome, i: nat)
    requires turn.Concluded(outcome) && i < |turn.log|
    ensures turn.log[i].event.StepStarted? || turn.log[i].event.ToolCall? ==> !turn.log[i].aborted
    ensures turn.log[i].event.StepStarted? ==>
      turn.log[i].reading.Some? && turn.log[i].reading.value - turn.startedAt < turn.maxTurnMs
  {
    assert Of(|turn.rounds|);
    assert Seen(turn.log) == turn.seen;
    TimesAreRead(turn.log);
    if turn.log[i].event.StepStarted? {
      StepIsTimed(turn.log, i);
    }
    if turn.log[i].event.StepStarted? || turn.log[i].event.ToolCall? {
      NoneBeginsAborted(turn.log, i);
    }
  }

  /** Whatever the provider was shown is what was given and what had been exchanged when earlier steps were served. */
  lemma ProviderSees(turn: Turn, j: nat) returns (k: nat)
    requires turn.Kept() && turn.Recorded() && j < |turn.provided|
    ensures k < |turn.rounds| && |Asked(turn.rounds[..k])| <= |turn.exchanges|
    ensures turn.provided[j].snapshot
         == turn.given + Render(turn.exchanges[..|Asked(turn.rounds[..k])|], turn.redactText)
  {
    turn.KeptMeans();
    CarriesAll(turn.Carried(), turn.rounds);
    ProvidedIsTraffic(turn.rounds);
    var i: nat;
    k, i := CallIsOfARound(turn.rounds, j);
    assert ShownAt(turn.given, turn.rounds, k, turn.exchanges, turn.redactText);
    SameSnapshot(turn.rounds[k], turn.given + Render(turn.exchanges[..|Asked(turn.rounds[..k])|], turn.redactText), i);
  }

  lemma SameSnapshot(round: Round, items: seq<Item>, i: nat)
    requires Retried(round, items) && i < |Attempts(round)|
    ensures Attempts(round)[i].call.snapshot == items && Listens(Attempts(round)[i])
  {
    assert Of(|round.limited|);
    if i < |round.limited| {
      assert round.limited[i] == (round.limited + [round.last])[i];
      assert Attempted(round.limited[i], items, i);
    }
  }

  /** The text streamed on is that of the provider calls, and each of them is a call of one round. */
  lemma TextIsStreamed(turn: Turn, outcome: LoopOutcome)
    requires turn.Concluded(outcome) && turn.Recorded()
    ensures Seen(turn.log).spoken == TrafficOf(turn.rounds).spoken && Seen(turn.log).muted == TrafficOf(turn.rounds).muted
    ensures turn.provided == ProvidedIn(turn.rounds) && turn.slept == TrafficOf(turn.rounds).slept
  {
    assert Of(|turn.rounds|);
    assert Seen(turn.log) == turn.seen;
    CarriesAll(turn.Carried(), turn.rounds);
    ProvidedIsTraffic(turn.rounds);
  }

  /**
   * Each known call has its number, its arguments and its result in the log, with its output in between;
   * the tools ran exactly what was exchanged, and every push that was looked up is announced as it was found.
   */
  lemma CallsShown(turn: Turn, outcome: LoopOutcome)
    requires turn.Concluded(outcome)
    ensures CallNumbers(turn.log) == CountingUp(turn.seen.calls)
    ensures AllShown(Seen(turn.log).finished, KnownRuns(turn.exchanges))
    ensures turn.executed == RunsIn(turn.exchanges)
    ensures |turn.heads| == Pushes(turn.exchanges) && Seen(turn.log).pushes == Announced(turn.heads)
  {
    assert Of(|turn.rounds|);
    assert Seen(turn.log) == turn.seen;
    NumbersCountUp(turn.log);
    var event, w := turn.seen.ended.value, turn.seen;
    var messages := if event.TurnCompleted? && event.byLimit then Earlier(w.messages) else w.messages;
    ReflectsAll(w.finished, turn.executed, |turn.heads|, messages, turn.exchanges);
  }

  /** Of what the answers asked for, in order, a prefix was served; a turn the model completed served all of it. */
  lemma ServedInOrder(turn: Turn, pending: seq<Request>)
    requires Owes(turn.exchanges, turn.rounds, pending)
    ensures Served(turn.exchanges) <= Asked(turn.rounds)
    ensures pending == [] ==> Served(turn.exchanges) == Asked(turn.rounds)
  {
    OwesAll(turn.exchanges, turn.rounds, pending);
  }

  /** A turn that was completed, by the model or for a limit, served all that was asked for. */
  lemma CompletionServesAll(turn: Turn, outcome: LoopOutcome)
    requires turn.Concluded(outcome)
    ensures |turn.log| > 0
    ensures turn.log[|turn.log| - 1].event.TurnCompleted? ==> Served(turn.exchanges) == Asked(turn.rounds)
  {
    assert Of(|turn.rounds|);
    assert Seen(turn.log) == turn.seen;
    OneEndAndLast(turn.log);
    OwesAll(turn.exchanges, turn.rounds, []);
    assert Served(turn.exchanges) + [] == Served(turn.exchanges);
  }
}

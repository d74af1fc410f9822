/**
 * The serialising writer of the event channel: a chain of promises, one link per event.
 *
 * Each emit hangs its write on the promise the `queue` variable refers to, and makes the queue refer
 * to a promise that settles when that write does. The scheduler picks freely among the steps that
 * promises allow; a stream may take any time over a write and may fail it.
 */
module EventWriter {
  import opened Common

  datatype Promise = Pending | Fulfilled | Rejected

  /**
   * One emitted event: the link whose caught promise it waits for, its own promise, whether its line
   * has been offered to the stream, and the promise the next link hangs on.
   */
  datatype Link<Event> = Link(event: Event, after: Option<nat>, written: Promise, offered: bool, caught: Promise)

  /** The links, the link the queue refers to, the events offered to the stream, and the time of the last completed write. */
  datatype Writer<Event> = Writer(links: seq<Link<Event>>, queue: Option<nat>, attempts: seq<Event>, lastAt: int)

  datatype Step<Event> =
    | Emit(event: Event)
    | Offer(k: nat)
    | Skip(k: nat)
    | Finish(k: nat, ok: bool, now: int)
    | Catch(k: nat)

  /** What a link waits for; the first ones wait for a promise that is resolved from the start. */
  function Upstream<Event>(w: Writer<Event>, k: nat): Promise
    requires k < |w.links|
  {
    match w.links[k].after
    case None => Fulfilled
    case Some(j) => if j < |w.links| then w.links[j].caught else Pending
  }

  predicate Enabled<Event>(w: Writer<Event>, step: Step<Event>) {
    match step
    case Emit(_) => true
    case Offer(k) => k < |w.links| && w.links[k].written.Pending? && !w.links[k].offered && Upstream(w, k) == Fulfilled
    case Skip(k) => k < |w.links| && w.links[k].written.Pending? && !w.links[k].offered && Upstream(w, k) == Rejected
    case Finish(k, _, _) => k < |w.links| && w.links[k].written.Pending? && w.links[k].offered
    case Catch(k) => k < |w.links| && !w.links[k].written.Pending? && w.links[k].caught.Pending?
  }

  function Next<Event>(w: Writer<Event>, step: Step<Event>): Writer<Event>
    requires Enabled(w, step)
  {
    match step
    case Emit(event) =>
      w.(links := w.links + [Link(event, w.queue, Pending, false, Pending)], queue := Some(|w.links|))
    case Offer(k) =>
      w.(links := w.links[k := w.links[k].(offered := true)], attempts := w.attempts + [w.links[k].event])
    case Skip(k) => w.(links := w.links[k := w.links[k].(written := Rejected)])
    case Finish(k, ok, now) =>
      w.(links := w.links[k := w.links[k].(written := if ok then Fulfilled else Rejected)],
         lastAt := if ok then now else w.lastAt)
    case Catch(k) => w.(links := w.links[k := w.links[k].(caught := Fulfilled)])
  }

  function Fresh<Event>(now: int): Writer<Event> {
    Writer([], None, [], now)
  }

  ghost predicate Runs<Event>(w: Writer<Event>, steps: seq<Step<Event>>)
    decreases |steps|
  {
    steps == [] || (Enabled(w, steps[0]) && Runs(Next(w, steps[0]), steps[1..]))
  }

  ghost function After<Event>(w: Writer<Event>, steps: seq<Step<Event>>): Writer<Event>
    requires Runs(w, steps)
    decreases |steps|
  {
    if steps == [] then w else After(Next(w, steps[0]), steps[1..])
  }

  function Emitted<Event>(steps: seq<Step<Event>>): seq<Event> {
    if steps == [] then [] else (if steps[0].Emit? then [steps[0].event] else []) + Emitted(steps[1..])
  }

  // ---------------------------------------------------------------- what every step keeps

  ghost predicate Linked<Event>(w: Writer<Event>, k: nat)
    requires k < |w.links|
  {
    && w.links[k].after == (if k == 0 then None else Some(k - 1))
    && (w.links[k].offered <==> k < |w.attempts|)
    && (w.links[k].offered ==> k == 0 || w.links[k - 1].caught.Fulfilled?)
    && (!w.links[k].written.Pending? ==> w.links[k].offered)
    && (w.links[k].caught.Pending? || (w.links[k].caught.Fulfilled? && !w.links[k].written.Pending?))
  }

  ghost predicate Chained<Event>(w: Writer<Event>) {
    && w.queue == (if w.links == [] then None else Some(|w.links| - 1))
    && |w.attempts| <= |w.links|
    && (forall k :: 0 <= k < |w.links| ==> Linked(w, k))
    && (forall k :: 0 <= k < |w.attempts| ==> w.attempts[k] == w.links[k].event)
  }

  /** A link that may be offered or skipped is the first that has not been offered. */
  lemma WaitingIsNext<Event>(w: Writer<Event>, k: nat)
    requires Chained(w) && k < |w.links| && !w.links[k].offered && !Upstream(w, k).Pending?
    ensures k == |w.attempts| && Upstream(w, k) == Fulfilled
  {
    assert Linked(w, k);
    if k > 0 {
      assert Linked(w, k - 1);
    }
  }

  lemma StepKeepsChain<Event>(w: Writer<Event>, step: Step<Event>)
    requires Chained(w) && Enabled(w, step)
    ensures Chained(Next(w, step)) && !step.Skip?
  {
    var w' := Next(w, step);
    if step.Offer? || step.Skip? {
      WaitingIsNext(w, step.k);
    }
    forall k | 0 <= k < |w'.links|
      ensures Linked(w', k)
    {
      if k < |w.links| {
        assert Linked(w, k);
      }
      if k > 0 {
        assert Linked(w, k - 1);
      }
    }
  }

  lemma {:induction false} RunKeepsChain<Event>(w: Writer<Event>, steps: seq<Step<Event>>)
    requires Chained(w) && Runs(w, steps)
    ensures Chained(After(w, steps))
    decreases |steps|
  {
    if steps != [] {
      StepKeepsChain(w, steps[0]);
      RunKeepsChain(Next(w, steps[0]), steps[1..]);
    }
  }

  function Events<Event>(links: seq<Link<Event>>): seq<Event> {
    seq(|links|, i requires 0 <= i < |links| => links[i].event)
  }

  lemma {:induction false} LinksAreEmits<Event>(w: Writer<Event>, steps: seq<Step<Event>>)
    requires Runs(w, steps)
    ensures Events(After(w, steps).links) == Events(w.links) + Emitted(steps)
    decreases |steps|
  {
    if steps != [] {
      LinksAreEmits(Next(w, steps[0]), steps[1..]);
      assert Events(Next(w, steps[0]).links) == Events(w.links) + if steps[0].Emit? then [steps[0].event] else [];
    }
  }

  // ---------------------------------------------------------------- what that gives

  lemma OffersInOrder<Event>(w: Writer<Event>)
    requires Chained(w)
    ensures w.attempts <= Events(w.links)
  {
  }

  lemma NothingBefore<T>(none: seq<T>, s: seq<T>)
    requires none == []
    ensures none + s == s
  {
  }

  /** Writes are offered once each, in the order of the emits. */
  lemma {:induction false} WritesInEmitOrder<Event>(now: int, steps: seq<Step<Event>>)
    requires Runs(Fresh(now), steps)
    ensures After(Fresh(now), steps).attempts <= Emitted(steps)
  {
    var start := Fresh<Event>(now);
    RunKeepsChain(start, steps);
    LinksAreEmits(start, steps);
    NothingBefore(Events(start.links), Emitted(steps));
    OffersInOrder(After(start, steps));
  }

  /** No write is skipped because an earlier one failed. */
  lemma {:induction false} NeverSkips<Event>(w: Writer<Event>, steps: seq<Step<Event>>)
    requires Chained(w) && Runs(w, steps)
    ensures forall i :: 0 <= i < |steps| ==> !steps[i].Skip?
    decreases |steps|
  {
    if steps != [] {
      StepKeepsChain(w, steps[0]);
      NeverSkips(Next(w, steps[0]), steps[1..]);
      assert forall i :: 0 < i < |steps| ==> steps[i] == steps[1..][i - 1];
    }
  }

  predicate InFlight<Event>(link: Link<Event>) {
    link.offered && link.written.Pending?
  }

  /** Never are two lines in flight, and the one that is was offered last. */
  lemma {:induction false} OneInFlight<Event>(now: int, steps: seq<Step<Event>>, k: nat)
    requires Runs(Fresh(now), steps)
    requires var w := After(Fresh(now), steps); k < |w.links| && InFlight(w.links[k])
    ensures k == |After(Fresh(now), steps).attempts| - 1
  {
    RunKeepsChain(Fresh(now), steps);
    var w := After(Fresh(now), steps);
    assert Linked(w, k);
    if k + 1 < |w.links| {
      assert Linked(w, k + 1);
    }
  }

  /** Until every line has been offered and has settled, there is a step to take that is not an emit. */
  lemma NeverStuck<Event>(now: int, steps: seq<Step<Event>>) returns (next: Step<Event>)
    requires Runs(Fresh(now), steps)
    requires var w := After(Fresh(now), steps); exists k :: 0 <= k < |w.links| && w.links[k].written.Pending?
    ensures Enabled(After(Fresh(now), steps), next) && !next.Emit? && !next.Skip?
  {
    RunKeepsChain(Fresh(now), steps);
    var w := After(Fresh(now), steps);
    var k: nat :| k < |w.links| && w.links[k].written.Pending?;
    var n := |w.attempts|;
    if n > 0 {
      assert Linked(w, n - 1);
    }
    if n > 0 && w.links[n - 1].written.Pending? {
      next := Finish(n - 1, true, now);
    } else if n > 0 && w.links[n - 1].caught.Pending? {
      next := Catch(n - 1);
    } else {
      assert Linked(w, k);
      EarlierSettled(w, k);
      assert Linked(w, n);
      next := Offer(n);
    }
  }

  /** A link that has not settled is at most one before the first that has not been offered. */
  lemma EarlierSettled<Event>(w: Writer<Event>, k: nat)
    requires Chained(w) && k < |w.links| && w.links[k].written.Pending?
    ensures k + 1 >= |w.attempts|
  {
    assert Linked(w, k);
    if k + 1 < |w.links| {
      assert Linked(w, k + 1);
    }
  }

  /** Once all lines have settled, each emitted event was offered exactly once, in order. */
  lemma {:induction false} AllWritten<Event>(now: int, steps: seq<Step<Event>>)
    requires Runs(Fresh(now), steps)
    requires var w := After(Fresh(now), steps); forall k :: 0 <= k < |w.links| ==> !w.links[k].written.Pending?
    ensures After(Fresh(now), steps).attempts == Emitted(steps)
  {
    RunKeepsChain(Fresh(now), steps);
    LinksAreEmits(Fresh(now), steps);
    var w := After(Fresh(now), steps);
    assert Events(Fresh<Event>(now).links) + Emitted(steps) == Emitted(steps);
    if |w.links| > 0 {
      assert Linked(w, |w.links| - 1);
    }
    assert w.attempts == Events(w.links);
  }

  // ---------------------------------------------------------------- what an emit is told

  /** The stream has called back about line k, with success or with an error. */
  ghost predicate Reported<Event>(steps: seq<Step<Event>>, k: nat, ok: bool) {
    exists i :: 0 <= i < |steps| && Reports(steps[i], k, ok)
  }

  predicate Reports<Event>(step: Step<Event>, k: nat, ok: bool) {
    step.Finish? && step.k == k && step.ok == ok
  }

  lemma {:induction false} ReportedFirst<Event>(steps: seq<Step<Event>>, k: nat, ok: bool)
    requires steps != []
    ensures Reported(steps, k, ok) <==> Reports(steps[0], k, ok) || Reported(steps[1..], k, ok)
  {
    if Reported(steps[1..], k, ok) {
      var i :| 0 <= i < |steps| - 1 && Reports(steps[1..][i], k, ok);
      assert Reports(steps[i + 1], k, ok);
    }
    if Reported(steps, k, ok) && !Reports(steps[0], k, ok) {
      var i :| 0 <= i < |steps| && Reports(steps[i], k, ok);
      assert Reports(steps[1..][i - 1], k, ok);
    }
  }

  predicate Settled<Event>(w: Writer<Event>, k: nat, outcome: Promise) {
    k < |w.links| && w.links[k].written == outcome
  }

  lemma StepSettles<Event>(w: Writer<Event>, step: Step<Event>, k: nat)
    requires Chained(w) && Enabled(w, step)
    ensures Settled(Next(w, step), k, Fulfilled) <==> Settled(w, k, Fulfilled) || Reports(step, k, true)
    ensures Settled(Next(w, step), k, Rejected) <==> Settled(w, k, Rejected) || Reports(step, k, false)
  {
    StepKeepsChain(w, step);
  }

  lemma {:induction false} RunSettles<Event>(w: Writer<Event>, steps: seq<Step<Event>>, k: nat)
    requires Chained(w) && Runs(w, steps)
    ensures Settled(After(w, steps), k, Fulfilled) <==> Settled(w, k, Fulfilled) || Reported(steps, k, true)
    ensures Settled(After(w, steps), k, Rejected) <==> Settled(w, k, Rejected) || Reported(steps, k, false)
    decreases |steps|
  {
    if steps != [] {
      StepSettles(w, steps[0], k);
      StepKeepsChain(w, steps[0]);
      ReportedFirst(steps, k, true);
      ReportedFirst(steps, k, false);
      RunSettles(Next(w, steps[0]), steps[1..], k);
    }
  }

  /** The promise of an emit resolves exactly if its own line was written, and rejects exactly if writing it failed. */
  lemma {:induction false} SettlesAsWritten<Event>(now: int, steps: seq<Step<Event>>, k: nat)
    requires Runs(Fresh(now), steps) && k < |After(Fresh(now), steps).links|
    ensures var written := After(Fresh(now), steps).links[k].written;
      && (written.Fulfilled? <==> Reported(steps, k, true))
      && (written.Rejected? <==> Reported(steps, k, false))
  {
    RunSettles(Fresh(now), steps, k);
  }

  predicate Succeeds<Event>(step: Step<Event>) {
    step.Finish? && step.ok
  }

  /** The time is that of the last line that was written, or else the one at the start. */
  ghost predicate LastWritten<Event>(start: int, steps: seq<Step<Event>>, at: int) {
    || (at == start && forall i :: 0 <= i < |steps| ==> !Succeeds(steps[i]))
    || exists i :: 0 <= i < |steps| && Succeeds(steps[i]) && at == steps[i].now
                   && forall j :: i < j < |steps| ==> !Succeeds(steps[j])
  }

  lemma {:induction false} LastEmittedAt<Event>(w: Writer<Event>, steps: seq<Step<Event>>)
    requires Runs(w, steps)
    ensures LastWritten(w.lastAt, steps, After(w, steps).lastAt)
    decreases |steps|
  {
    if steps != [] {
      var rest, at := steps[1..], After(w, steps).lastAt;
      LastEmittedAt(Next(w, steps[0]), rest);
      assert forall i :: 0 < i < |steps| ==> steps[i] == rest[i - 1];
      if i :| 0 <= i < |rest| && Succeeds(rest[i]) && at == rest[i].now
              && forall j :: i < j < |rest| ==> !Succeeds(rest[j]) {
        assert Succeeds(steps[i + 1]) && at == steps[i + 1].now;
        assert forall j :: i + 1 < j < |steps| ==> !Succeeds(steps[j]);
      } else if Succeeds(steps[0]) {
        assert at == steps[0].now;
        assert forall j :: 0 < j < |steps| ==> !Succeeds(steps[j]);
      }
    }
  }

  /** The writer as an object: the two variables its closures share, and the promises they reach. */
  class Channel<Event> {
    var links: seq<Link<Event>>
    var queue: Option<nat>
    var attempts: seq<Event>
    var lastAt: int

    function State(): Writer<Event>
      reads this
    {
      Writer(links, queue, attempts, lastAt)
    }

    constructor (now: int)
      ensures State() == Fresh(now)
    {
      links, queue, attempts, lastAt := [], None, [], now;
    }

    method EmitEvent(event: Event)
      modifies this
      ensures State() == Next(old(State()), Emit(event))
    {
      links := links + [Link(event, queue, Pending, false, Pending)];
      queue := Some(|links| - 1);
    }

    /** The stream calls back about a line it was offered. */
    method WriteDone(k: nat, ok: bool, now: int)
      requires Enabled(State(), Finish(k, ok, now))
      modifies this
      ensures State() == Next(old(State()), Finish(k, ok, now))
    {
      if !ok {
        links := links[k := links[k].(written := Rejected)];
        return;
      }
      lastAt := now;
      links := links[k := links[k].(written := Fulfilled)];
    }
  }
}

/**
 * The turn command: take the credentials, read one request, prepare the workspace, run the loop, and
 * report what escapes as one event and one exit code.
 *
 * Whatever the command calls may succeed or raise as it pleases; a line it waits for may be lost.
 */
module TurnCommand {
  import TurnEvents
  import TurnConversation
  import TurnLoop

  const EXIT_OK := 0
  const EXIT_RUNTIME_FAILURE := 1
  const EXIT_PROTOCOL_ERROR := 2

  datatype FailureCode = ConfigCode | PrepareCode | RuntimeCode | CredentialsCode

  /** What a line on stdout says, and whether it was accepted. */
  datatype Line = Started | Preparing | Looped(event: TurnEvents.AgentEvent) | Failed(code: FailureCode)

  datatype Written = Written(line: Line, delivered: bool)

  datatype Thrown = ConfigError | PrepareError | GitError | OtherError

  datatype Returned = Fine | Raised(thrown: Thrown)

  /** An exit code, or a rejection that nothing in the command catches. */
  datatype CommandEnd = Exit(code: int) | Escaped

  predicate Terminal(line: Line) {
    line.Failed? || (line.Looped? && line.event.Terminal())
  }

  // ---------------------------------------------------------------- the token file

  /** What becomes of a call into the file system: it may raise with or without having taken effect. */
  datatype Fate = Works | FailsBefore | FailsAfter

  /** The fates of the five calls a turn makes about the file that holds its git token. */
  datatype TokenFates = TokenFates(mkdir: Fate, write: Fate, chmodDirectory: Fate, chmodFile: Fate, remove: Fate) {
    predicate Writes() {
      mkdir.Works? && !write.FailsBefore?
    }

    /** The path reaches the command only if none of the four calls that make the file raised. */
    predicate PathKnown() {
      mkdir.Works? && write.Works? && chmodDirectory.Works? && chmodFile.Works?
    }

    predicate Removes() {
      PathKnown() && !remove.FailsBefore?
    }
  }

  /** Whether the file is there after a number of turns in one container. */
  function OnDisk(start: bool, turns: seq<TokenFates>): bool {
    if turns == [] then start
    else
      var last := turns[|turns| - 1];
      (OnDisk(start, turns[..|turns| - 1]) || last.Writes()) && !last.Removes()
  }

  lemma {:induction false} OneTurn(start: bool, fates: TokenFates)
    ensures OnDisk(start, [fates]) == ((start || fates.Writes()) && !fates.Removes())
  {
    assert [fates][..0] == [];
  }

  ghost predicate NoneRemoves(turns: seq<TokenFates>, from: nat) {
    forall k :: from <= k < |turns| ==> !turns[k].Removes()
  }

  /**
   * A file is there at the end exactly if it was there before, or one of the turns wrote it, and no turn
   * from then on learned its path and removed it. A turn that only fails to tighten the permissions of
   * what it wrote does not remove it.
   */
  lemma {:induction false} TokenStaysExactly(start: bool, turns: seq<TokenFates>)
    ensures OnDisk(start, turns)
        <==> (start && NoneRemoves(turns, 0)) || exists j: nat :: j < |turns| && turns[j].Writes() && NoneRemoves(turns, j)
  {
    if turns == [] {
    } else {
      var n := |turns| - 1;
      var before := turns[..n];
      TokenStaysExactly(start, before);
      if OnDisk(start, turns) {
        if turns[n].Writes() {
          assert NoneRemoves(turns, n);
        } else if start && NoneRemoves(before, 0) {
          assert NoneRemoves(turns, 0);
        } else {
          var j: nat :| j < n && before[j].Writes() && NoneRemoves(before, j);
          assert turns[j].Writes() && NoneRemoves(turns, j);
        }
      } else if !turns[n].Removes() {
        assert NoneRemoves(turns, 0) ==> NoneRemoves(before, 0);
        forall j: nat | j < n
          ensures !(turns[j].Writes() && NoneRemoves(turns, j))
        {
          assert before[j] == turns[j];
          assert NoneRemoves(turns, j) ==> NoneRemoves(before, j);
        }
      }
    }
  }

  const ALL_WORK := TokenFates(Works, Works, Works, Works, Works)

  /** A turn that could not tighten the permissions leaves the file, and the next turn without a fault takes it away. */
  lemma TokenOutlivesTurn()
    ensures var untightened := ALL_WORK.(chmodFile := FailsBefore);
      OnDisk(false, [untightened]) && !OnDisk(false, [untightened, ALL_WORK])
  {
    var untightened := ALL_WORK.(chmodFile := FailsBefore);
    TokenStaysExactly(false, [untightened]);
    assert [untightened][0].Writes() && NoneRemoves([untightened], 0);
    TokenStaysExactly(false, [untightened, ALL_WORK]);
    assert [untightened, ALL_WORK][1].Removes();
  }

  // ---------------------------------------------------------------- the lines

  /** How many terminal lines were delivered. */
  function Ends(lines: seq<Written>): nat {
    if lines == [] then 0
    else
      var last := lines[|lines| - 1];
      Ends(lines[..|lines| - 1]) + if Terminal(last.line) && last.delivered then 1 else 0
  }

  /** The exit code that goes with the line that ended the turn. */
  function CodeFor(line: Line): int {
    if line == Failed(RuntimeCode) || line == Failed(CredentialsCode) then EXIT_RUNTIME_FAILURE else EXIT_OK
  }

  lemma {:induction false} EndsNext(lines: seq<Written>, next: Written)
    ensures Ends(lines + [next]) == Ends(lines) + if Terminal(next.line) && next.delivered then 1 else 0
  {
    assert (lines + [next])[..|lines|] == lines;
  }

  lemma {:induction false} EndsAdd(a: seq<Written>, b: seq<Written>)
    ensures Ends(a + b) == Ends(a) + Ends(b)
  {
    if b == [] {
      assert a + b == a;
    } else {
      var n := |b| - 1;
      assert (a + b)[..|a + b| - 1] == a + b[..n];
      EndsAdd(a, b[..n]);
    }
  }

  function Lifted(log: seq<TurnEvents.Entry>): seq<Written> {
    seq(|log|, i requires 0 <= i < |log| => Written(Looped(log[i].event), log[i].delivered))
  }

  /** The command, preparation and the loop wait for every line but heartbeats, tool output and pieces of text. */
  predicate Awaited(line: Line) {
    line.Looped? ==> TurnEvents.Awaited(line.event)
  }

  /** A line that was waited for was lost. */
  ghost predicate SomeLost(lines: seq<Written>) {
    exists i :: 0 <= i < |lines| && Awaited(lines[i].line) && !lines[i].delivered
  }

  lemma LostInParts(a: seq<Written>, b: seq<Written>)
    ensures SomeLost(a + b) <==> SomeLost(a) || SomeLost(b)
  {
    if SomeLost(a) {
      var i :| 0 <= i < |a| && Awaited(a[i].line) && !a[i].delivered;
      assert (a + b)[i] == a[i];
    }
    if SomeLost(b) {
      var i :| 0 <= i < |b| && Awaited(b[i].line) && !b[i].delivered;
      assert (a + b)[|a| + i] == b[i];
    }
  }

  lemma LostOne(next: Written)
    ensures SomeLost([next]) <==> Awaited(next.line) && !next.delivered
  {
    assert [next][0] == next;
  }

  function Rank(line: Line): nat {
    match line
    case Started => 0
    case Preparing => 1
    case Looped(_) => 2
    case Failed(_) => 3
  }

  /** First the announcement, then preparation, then the loop, then a failure. */
  ghost predicate InOrder(lines: seq<Written>) {
    forall i, j :: 0 <= i < j < |lines| ==> Rank(lines[i].line) <= Rank(lines[j].line)
  }

  ghost predicate UpTo(lines: seq<Written>, rank: nat) {
    InOrder(lines) && forall i :: 0 <= i < |lines| ==> Rank(lines[i].line) <= rank
  }

  lemma OrderInParts(a: seq<Written>, b: seq<Written>, rank: nat, top: nat)
    requires UpTo(a, rank) && rank <= top && forall j :: 0 <= j < |b| ==> Rank(b[j].line) == top
    ensures UpTo(a + b, top)
  {
    forall i | 0 <= i < |a + b|
      ensures if i < |a| then Rank((a + b)[i].line) <= rank else Rank((a + b)[i].line) == top
    {
    }
    forall i, j | 0 <= i < j < |a + b|
      ensures Rank((a + b)[i].line) <= Rank((a + b)[j].line)
    {
      if j < |a| {
        assert Rank(a[i].line) <= Rank(a[j].line);
      }
    }
  }

  lemma {:induction false} NoneEnds(lines: seq<Written>)
    requires forall i :: 0 <= i < |lines| ==> !(Terminal(lines[i].line) && lines[i].delivered)
    ensures Ends(lines) == 0
  {
    if lines != [] {
      NoneEnds(lines[..|lines| - 1]);
    }
  }

  /** A loop that returned has written one delivered terminal line, its last; one that raised has written none. */
  lemma LoopEndsOnce(turn: TurnLoop.Turn, outcome: TurnLoop.LoopOutcome)
    requires turn.Concluded(outcome)
    ensures var lines := Lifted(turn.log);
      Ends(lines) == 1 && lines != [] && Terminal(lines[|lines| - 1].line) && lines[|lines| - 1].delivered
      && lines[|lines| - 1].line.Looped?
  {
    TurnLoop.OneOutcome(turn, outcome);
    var lines := Lifted(turn.log);
    NoneEnds(lines[..|lines| - 1]);
  }

  lemma LoopEndsNever(turn: TurnLoop.Turn)
    requires turn.Interrupted()
    ensures Ends(Lifted(turn.log)) == 0
  {
    TurnLoop.NoOutcome(turn);
    NoneEnds(Lifted(turn.log));
  }

  /** A loop returns exactly if no line it waits for was lost. */
  lemma LoopLosesOrReturns(turn: TurnLoop.Turn, end: TurnLoop.StepEnd)
    requires !end.GoOn? && turn.Leaves(end)
    ensures end.Threw? <==> SomeLost(Lifted(turn.log))
  {
    TurnLoop.LostLinesEscape(turn, end);
    var lines := Lifted(turn.log);
    if end.Threw? {
      var i :| 0 <= i < |turn.log| && TurnEvents.Awaited(turn.log[i].event) && !turn.log[i].delivered;
      assert Awaited(lines[i].line) && !lines[i].delivered;
    }
  }

  /** The lines of a loop on any conversation, with any limits. */
  method LoopLines() returns (returned: bool, loop: seq<Written>)
    ensures returned <==> !SomeLost(loop)
    ensures forall i :: 0 <= i < |loop| ==> loop[i].line.Looped?
    ensures returned ==> Ends(loop) == 1 && loop != [] && loop[|loop| - 1].delivered && Terminal(loop[|loop| - 1].line)
    ensures !returned ==> Ends(loop) == 0
  {
    var items: seq<TurnConversation.Item>, notes: seq<string> := *, *;
    var maxSteps: nat, maxTurnMs: nat, redact: string -> string := *, *, *;
    var turn := new TurnLoop.Turn(items, notes, maxSteps, maxTurnMs, redact);
    var end, _ := turn.Run();
    returned, loop := end.Ended?, Lifted(turn.log);
    LoopLosesOrReturns(turn, end);
    if end.Ended? {
      LoopEndsOnce(turn, end.outcome);
    } else {
      LoopEndsNever(turn);
    }
  }

  lemma LastOfBoth<T>(a: seq<T>, b: seq<T>)
    requires b != []
    ensures a + b != [] && (a + b)[|a + b| - 1] == b[|b| - 1]
  {
  }

  /** The lines of a loop after those of preparation. */
  lemma {:induction false} LoopFollows(lines: seq<Written>, loop: seq<Written>, returned: bool)
    requires Ends(lines) == 0 && !SomeLost(lines) && UpTo(lines, 1)
    requires returned <==> !SomeLost(loop)
    requires forall i :: 0 <= i < |loop| ==> loop[i].line.Looped?
    requires returned ==> Ends(loop) == 1 && loop != [] && loop[|loop| - 1].delivered && Terminal(loop[|loop| - 1].line)
    requires !returned ==> Ends(loop) == 0
    ensures UpTo(lines + loop, 2) && lines <= lines + loop
    ensures Ends(lines + loop) == (if returned then 1 else 0) && (SomeLost(lines + loop) <==> !returned)
    ensures returned ==> lines + loop != [] && (lines + loop)[|lines + loop| - 1] == loop[|loop| - 1]
  {
    EndsAdd(lines, loop);
    LostInParts(lines, loop);
    OrderInParts(lines, loop, 1, 2);
    if returned {
      LastOfBoth(lines, loop);
    }
  }

  /** What the calls of a request come to: those about the token file, the reading of the configuration, and preparation. */
  datatype Given = Given(fates: TokenFates, configured: bool, prepared: Returned)

  function CodeOf(thrown: Thrown): FailureCode {
    match thrown
    case ConfigError => ConfigCode
    case OtherError => RuntimeCode
    case _ => PrepareCode
  }

  /** The line that ends a request when no line is lost: the failure of the first call that raises, or the loop's own end. */
  predicate EndsWith(given: Given, line: Line) {
    if !given.fates.PathKnown() then line == Failed(RuntimeCode)
    else if !given.configured then line == Failed(ConfigCode)
    else if given.prepared.Raised? then line == Failed(CodeOf(given.prepared.thrown))
    else line.Looped? && line.event.Terminal()
  }

  /**
   * How the lines of a request end: with one delivered terminal line, or with a failure that was lost. After a
   * loss that is the failure of the runtime, and else the line `EndsWith` names.
   */
  ghost predicate Concludes(given: Given, lines: seq<Written>) {
    && lines != []
    && var before, last := lines[..|lines| - 1], lines[|lines| - 1];
       && Ends(lines) == (if last.delivered then 1 else 0) && (last.delivered || last.line.Failed?)
       && Terminal(last.line)
       && if SomeLost(before) then last.line == Failed(RuntimeCode) else EndsWith(given, last.line)
  }

  /** The error that is caught is the one to report. */
  ghost predicate Causes(given: Given, lines: seq<Written>, thrown: Thrown) {
    if SomeLost(lines) then thrown == OtherError else EndsWith(given, Failed(CodeOf(thrown)))
  }

  /** The end of a turn that the event stream describes: its own, or a failure of its configuration or preparation. */
  predicate Described(line: Line) {
    match line
    case Failed(code) => code.ConfigCode? || code.PrepareCode?
    case Looped(event) => event.Terminal()
    case _ => false
  }

  class Command {
    var lines: seq<Written>
    var requestRead: bool
    /** Whether the file that holds the git token exists. */
    var tokenOnDisk: bool
    /** Whether an interrupt of the process raises the signal of this turn. */
    var subscribed: bool
    /** How many diagnoses went to stderr. */
    var diagnoses: nat

    constructor (leftover: bool)
      ensures lines == [] && !requestRead && tokenOnDisk == leftover && !subscribed && diagnoses == 0
    {
      lines, requestRead, tokenOnDisk, subscribed, diagnoses := [], false, leftover, false, 0;
    }

    /** Nothing has ended the request, and nothing that was waited for was lost. */
    ghost predicate Running(rank: nat)
      reads `lines
    {
      Ends(lines) == 0 && !SomeLost(lines) && UpTo(lines, rank)
    }

    method Emit(line: Line) returns (delivered: bool)
      requires Ends(lines) == 0 && InOrder(lines) && Awaited(line)
      requires forall i :: 0 <= i < |lines| ==> Rank(lines[i].line) <= Rank(line)
      modifies `lines
      ensures lines == old(lines) + [Written(line, delivered)] && UpTo(lines, Rank(line))
      ensures SomeLost(lines) <==> SomeLost(old(lines)) || !delivered
      ensures Ends(lines) == if Terminal(line) && delivered then 1 else 0
    {
      delivered := *;
      var next := Written(line, delivered);
      EndsNext(lines, next);
      LostInParts(lines, [next]);
      LostOne(next);
      OrderInParts(lines, [next], Rank(line), Rank(line));
      lines := lines + [next];
    }

    /** The one terminal line was delivered last, and the exit code is the one that goes with it. */
    ghost predicate Settled(code: int)
      reads `lines
    {
      && Ends(lines) == 1 && lines != []
      && var last := lines[|lines| - 1];
         Terminal(last.line) && last.delivered && code == CodeFor(last.line)
    }

    method EmitFailure(code: FailureCode) returns (delivered: bool)
      requires Ends(lines) == 0 && UpTo(lines, 2)
      modifies `lines
      ensures lines == old(lines) + [Written(Failed(code), delivered)] && InOrder(lines)
      ensures Ends(lines) == if delivered then 1 else 0
    {
      delivered := Emit(Failed(code));
    }

    /** An error becomes one event and one exit code, unless its line is lost. */
    method ReportFailure(thrown: Thrown) returns (end: CommandEnd)
      requires Ends(lines) == 0 && UpTo(lines, 2)
      modifies `lines, `diagnoses
      ensures lines == old(lines) + [Written(Failed(CodeOf(thrown)), end.Exit?)] && InOrder(lines)
      ensures Ends(lines) == if end.Exit? then 1 else 0
      ensures end.Exit? ==> end.code == CodeFor(Failed(CodeOf(thrown)))
      ensures diagnoses == old(diagnoses) + if thrown.OtherError? then 1 else 0
    {
      var delivered: bool;
      match thrown {
        case ConfigError =>
          delivered := EmitFailure(ConfigCode);
          end := if delivered then Exit(EXIT_OK) else Escaped;
        case OtherError =>
          diagnoses := diagnoses + 1;
          delivered := EmitFailure(RuntimeCode);
          end := if delivered then Exit(EXIT_RUNTIME_FAILURE) else Escaped;
        case _ =>
          delivered := EmitFailure(PrepareCode);
          end := if delivered then Exit(EXIT_OK) else Escaped;
      }
    }

    /** Prepares the workspace; a lost line is one of the errors it may raise. */
    method PrepareWorkspace(prepared: Returned) returns (r: Returned)
      requires Running(1)
      modifies `lines
      ensures Ends(lines) == 0 && UpTo(lines, 1) && old(lines) <= lines
      ensures r == if SomeLost(lines) then Raised(OtherError) else prepared
    {
      var reports: nat := *;
      var made := 0;
      while made < reports
        invariant Running(1) && old(lines) <= lines
      {
        made := made + 1;
        var delivered := Emit(Preparing);
        if !delivered {
          return Raised(OtherError);
        }
      }
      r := prepared;
    }

    /** Runs the loop over the channel of this command. */
    method RunLoop() returns (r: Returned)
      requires Running(1)
      modifies `lines
      ensures UpTo(lines, 2) && old(lines) <= lines
      ensures r == if SomeLost(lines) then Raised(OtherError) else Fine
      ensures r.Fine? ==> Settled(EXIT_OK) && lines[|lines| - 1].line.Looped?
      ensures r.Raised? ==> Ends(lines) == 0
    {
      var returned, loop := LoopLines();
      LoopFollows(lines, loop, returned);
      lines := lines + loop;
      r := if returned then Fine else Raised(OtherError);
    }

    /** Announces the turn, prepares and runs it. What it raises is what the first call raised, or the loss of a line. */
    method PrepareAndRun(given: Given) returns (r: Returned)
      requires lines == [] && subscribed
      modifies `lines
      ensures UpTo(lines, 2) && lines != [] && lines[0].line == Started
      ensures r == if SomeLost(lines) then Raised(OtherError)
                   else if !given.configured then Raised(ConfigError)
                   else given.prepared
      ensures r.Fine? ==> Settled(EXIT_OK) && lines[|lines| - 1].line.Looped?
      ensures r.Raised? ==> Ends(lines) == 0
    {
      var delivered := Emit(Started);
      if !delivered {
        return Raised(OtherError);
      }
      if !given.configured {
        return Raised(ConfigError);
      }
      r := PrepareWorkspace(given.prepared);
      if r.Raised? {
        return;
      }
      r := RunLoop();
    }

    /** Writes the token file and tightens its permissions; the path is returned only if nothing raised. */
    method MaterializeGitToken(fates: TokenFates) returns (r: Returned)
      modifies `tokenOnDisk
      ensures r == if fates.PathKnown() then Fine else Raised(OtherError)
      ensures tokenOnDisk == (old(tokenOnDisk) || fates.Writes())
    {
      if !fates.mkdir.Works? {
        return Raised(OtherError);
      }
      tokenOnDisk := tokenOnDisk || !fates.write.FailsBefore?;
      if !fates.write.Works? || !fates.chmodDirectory.Works? || !fates.chmodFile.Works? {
        return Raised(OtherError);
      }
      r := Fine;
    }

    method RemoveGitToken(fate: Fate) returns (r: Returned)
      modifies `tokenOnDisk
      ensures r == if fate.Works? then Fine else Raised(OtherError)
      ensures tokenOnDisk == (old(tokenOnDisk) && fate.FailsBefore?)
    {
      tokenOnDisk := tokenOnDisk && fate.FailsBefore?;
      r := if fate.Works? then Fine else Raised(OtherError);
    }

    /** The token file and the turn: what is caught when one of them raises. */
    method Attempt(given: Given) returns (known: bool, r: Returned)
      requires lines == [] && subscribed
      modifies `lines, `tokenOnDisk
      ensures known == given.fates.PathKnown() && tokenOnDisk == (old(tokenOnDisk) || given.fates.Writes())
      ensures UpTo(lines, 2) && (known ==> lines != [] && lines[0].line == Started)
      ensures r.Fine? ==> Settled(EXIT_OK) && Concludes(given, lines)
      ensures r.Raised? ==> Ends(lines) == 0 && Causes(given, lines, r.thrown)
    {
      var made := MaterializeGitToken(given.fates);
      known, r := made.Fine?, made;
      if known {
        r := PrepareAndRun(given);
      }
      if r.Fine? {
        LastIsNotLost(lines);
      }
    }

    /** Reports what was caught, or nothing. */
    method Settle(given: Given, r: Returned) returns (end: CommandEnd)
      requires UpTo(lines, 2)
      requires r.Fine? ==> Settled(EXIT_OK) && Concludes(given, lines)
      requires r.Raised? ==> Ends(lines) == 0 && Causes(given, lines, r.thrown)
      modifies `lines, `diagnoses
      ensures old(lines) <= lines && InOrder(lines) && Concludes(given, lines)
      ensures end.Exit? == lines[|lines| - 1].delivered && (end.Exit? ==> end.code == CodeFor(lines[|lines| - 1].line))
      ensures diagnoses == old(diagnoses) + if CodeFor(lines[|lines| - 1].line) == EXIT_OK then 0 else 1
    {
      end := Exit(EXIT_OK);
      if r.Raised? {
        ghost var before := lines;
        end := ReportFailure(r.thrown);
        assert lines[..|lines| - 1] == before;
      }
    }

    /**
     * Runs a request. When no line is lost its last line is the one `EndsWith` names, and after a loss a
     * runtime failure. It escapes exactly if that last line is lost, or the removal of the token file raises;
     * however it ends the subscription is over, and the token file is what `OnDisk` says.
     */
    method RunRequest(given: Given) returns (end: CommandEnd)
      requires lines == []
      modifies `lines, `tokenOnDisk, `subscribed, `diagnoses
      ensures InOrder(lines) && Concludes(given, lines) && (given.fates.PathKnown() ==> lines[0].line == Started)
      ensures end.Escaped? <==> !lines[|lines| - 1].delivered || (given.fates.PathKnown() && !given.fates.remove.Works?)
      ensures end.Exit? ==> end.code == CodeFor(lines[|lines| - 1].line)
      ensures diagnoses == old(diagnoses) + if CodeFor(lines[|lines| - 1].line) == EXIT_OK then 0 else 1
      ensures tokenOnDisk == OnDisk(old(tokenOnDisk), [given.fates])
      ensures !subscribed
    {
      OneTurn(tokenOnDisk, given.fates);
      subscribed := true;
      var known, r := Attempt(given);
      end := Settle(given, r);
      subscribed := false;
      if known {
        var removed := RemoveGitToken(given.fates.remove);
        if removed.Raised? {
          end := Escaped;
        }
      }
    }

    method ReportMissingCredentials() returns (end: CommandEnd)
      requires lines == []
      modifies `lines, `diagnoses
      ensures lines == [Written(Failed(CredentialsCode), end.Exit?)] && Ends(lines) == (if end.Exit? then 1 else 0)
      ensures end.Exit? ==> end.code == EXIT_RUNTIME_FAILURE
      ensures diagnoses == old(diagnoses) + 1
    {
      diagnoses := diagnoses + 1;
      var delivered := EmitFailure(CredentialsCode);
      end := if delivered then Exit(EXIT_RUNTIME_FAILURE) else Escaped;
    }

    /** The command: without credentials one failure is reported, without a request none, else the request is run. */
    method RunTurnCommand(taken: bool, readable: bool, given: Given) returns (end: CommandEnd)
      requires lines == [] && !requestRead && !subscribed && diagnoses == 0
      modifies this
      ensures requestRead == (taken && readable)
      ensures end == Exit(EXIT_PROTOCOL_ERROR) <==> taken && !readable
      ensures taken && !readable ==> lines == [] && diagnoses == 1
      ensures !taken ==>
        |lines| == 1 && lines[0].line == Failed(CredentialsCode) && end.Exit? == lines[0].delivered && diagnoses == 1
      ensures requestRead ==>
        && Concludes(given, lines)
        && (end.Escaped? <==> !lines[|lines| - 1].delivered || (given.fates.PathKnown() && !given.fates.remove.Works?))
        && diagnoses == if CodeFor(lines[|lines| - 1].line) == EXIT_OK then 0 else 1
      ensures end == Exit(0) ==> lines != [] && Described(lines[|lines| - 1].line)
      ensures end == Exit(1) ==> lines != [] && !Described(lines[|lines| - 1].line)
      ensures end.Exit? ==> end.code in {0, 1, 2} && (end.code != 2 ==> Settled(end.code))
      ensures InOrder(lines) && Ends(lines) <= 1 && !subscribed
      ensures tokenOnDisk == OnDisk(old(tokenOnDisk), if requestRead then [given.fates] else [])
    {
      if !taken {
        end := ReportMissingCredentials();
        return;
      }
      if !readable {
        diagnoses := 1;
        return Exit(EXIT_PROTOCOL_ERROR);
      }
      requestRead := true;
      end := RunRequest(given);
    }
  }

  lemma LastIsNotLost(lines: seq<Written>)
    requires lines != [] && !SomeLost(lines)
    ensures !SomeLost(lines[..|lines| - 1])
  {
    LostInParts(lines[..|lines| - 1], [lines[|lines| - 1]]);
    assert lines == lines[..|lines| - 1] + [lines[|lines| - 1]];
  }
}

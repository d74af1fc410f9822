/**
 * Exactly which runs keep bases exclusive: those that meet no hazard. After any hazard two live
 * processes can come to hold one base without a further one, and every hazard does occur.
 */
module PortBaseExact {
  import opened PortBase
  import opened PortBaseProofs
  import opened PortBaseTraces

  /** Two holders of one base are a run without a hazard away. */
  ghost predicate Doomed(s: State) {
    exists b :: Overlaps(s, [], b)
  }

  lemma InvIsNotDoomed(s: State)
    requires Inv(s)
    ensures !Doomed(s)
  {
    if b :| Overlaps(s, [], b) {
      var t :| Leads(s, [], t) && Overlap(t, b);
      var actions :| Run(s, actions) == t && HazardsOf(s, actions) == [];
      ExclusionWithoutHazards(s, actions);
    }
  }

  // ---------------------------------------------------------------- moves without a hazard

  lemma Go(s: State, t: State, a: Action)
    requires Leads(s, [], t) && Hazards(t, a) == []
    ensures Leads(s, [], Step(t, a))
  {
    Then(s, [], t, a);
  }

  /** A number above every element. */
  lemma Above(pids: set<Pid>) returns (n: Pid)
    ensures forall p :: p in pids ==> p < n
    decreases |pids|
  {
    n := 0;
    if pids != {} {
      var p :| p in pids;
      var m := Above(pids - {p});
      n := if m > p then m else p + 1;
      assert forall q :: q in pids ==> q == p || q in pids - {p};
    }
  }

  function Idler(t: State, p: Pid): State {
    t.(procs := t.procs[p := Process(true, Idle, [])])
  }

  lemma SpawnsFresh(s: State, t: State) returns (p: Pid)
    requires Leads(s, [], t)
    ensures p !in t.procs && Leads(s, [], Idler(t, p))
  {
    p := Above(t.procs.Keys);
    Go(s, t, Spawn(p));
  }

  lemma Overwrites<K, V>(m: map<K, V>, k: K, v: V, w: V)
    ensures m[k := v][k := w] == m[k := w]
  {
  }

  function Owned(t: State, q: Pid, b: int): State {
    State(t.files[Marker(b) := Names(q)], t.procs[q := Process(true, Idle, [b])])
  }

  /** A fresh process claims a base whose marker is missing. */
  lemma FreshClaims(s: State, t: State, b: int) returns (q: Pid)
    requires Leads(s, [], t) && Marker(b) !in t.files
    ensures q !in t.procs && Leads(s, [], Owned(t, q, b))
  {
    q := SpawnsFresh(s, t);
    Claims(s, [], Idler(t, q), q, b);
    assert [] + [b] == [b];
    Overwrites(t.procs, q, Process(true, Idle, []), Process(true, Idle, [b]));
  }

  function Entered(t: State, r: Pid, b: int): State {
    State(t.files[Lock(b) := Names(r)], t.procs[r := Process(true, Read(Marker(b)), [])])
  }

  /** A fresh process finds the base taken and enters the section of its free lock. */
  lemma FreshEnters(s: State, t: State, b: int) returns (r: Pid)
    requires Leads(s, [], t) && Marker(b) in t.files && Lock(b) !in t.files
    ensures r !in t.procs && Leads(s, [], Entered(t, r, b))
  {
    r := SpawnsFresh(s, t);
    FindsTaken(s, [], Idler(t, r), r, b);
    TakesLock(s, [], Idler(t, r), r, b);
    Overwrites(t.procs, r, Process(true, Idle, []), Process(true, Read(Marker(b)), []));
  }

  function Killed(t: State, p: Pid): State
    requires p in t.procs
  {
    t.(procs := t.procs[p := t.procs[p].(alive := false)])
  }

  lemma Kills(s: State, t: State, p: Pid)
    requires Leads(s, [], t) && Live(t, p)
    ensures Leads(s, [], Killed(t, p))
  {
    Go(s, t, Die(p));
  }

  /** A process that reads a marker naming nobody live comes to remove it. */
  lemma JudgesDead(s: State, t: State, p: Pid, b: int)
    requires Leads(s, [], t) && Live(t, p) && t.procs[p].pc == Read(Marker(b)) && NamesNobodyLive(t, Marker(b))
    ensures Leads(s, [], Goto(t, p, RemoveMarker(b)))
  {
    Go(s, t, Act(p, false));
    if t.files[Marker(b)].Names? {
      var owner := t.files[Marker(b)].pid;
      var t' := Goto(t, p, Probe(Marker(b), owner));
      Go(s, t', Act(p, false));
      assert Step(t', Act(p, false)) == Goto(t, p, RemoveMarker(b));
    }
  }

  // ---------------------------------------------------------------- a removal on a wrong verdict

  /** A process about to remove a marker that is missing or names its live holder. */
  ghost predicate WrongRemoval(t: State, p: Pid, b: int) {
    && Live(t, p) && t.procs[p].pc == RemoveMarker(b)
    && (Marker(b) in t.files ==> t.files[Marker(b)].Names? && Holds(t, t.files[Marker(b)].pid, b))
  }

  lemma WrongRemovalIsFatal(s: State, t: State, p: Pid, b: int)
    requires Leads(s, [], t) && WrongRemoval(t, p, b)
    ensures Doomed(s)
  {
    if Marker(b) in t.files {
      var c := SpawnsFresh(s, t);
      assert Holds(Idler(t, c), t.files[Marker(b)].pid, b);
      RemovalOverlaps(s, [], Idler(t, c), b, p, t.files[Marker(b)].pid, c);
    } else {
      var q := SpawnsFresh(s, t);
      var c := SpawnsFresh(s, Idler(t, q));
      NextOwnerLoses(s, [], Idler(Idler(t, q), c), b, p, q, c);
    }
  }

  // ---------------------------------------------------------------- two processes in one section

  /** The marker is there, and if it names a live process that process holds the base. */
  ghost predicate Marked(t: State, b: int) {
    && Marker(b) in t.files && (t.files[Marker(b)].Names? ==> t.files[Marker(b)].pid in t.procs)
    && (!NamesNobodyLive(t, Marker(b)) ==> Holds(t, t.files[Marker(b)].pid, b))
  }

  /** Of two processes that read a dead marker, the second removes the next owner's. */
  lemma TwoReadersAreFatal(s: State, t: State, p: Pid, q: Pid, b: int)
    requires Leads(s, [], t) && p != q && Live(t, p) && Live(t, q) && NamesNobodyLive(t, Marker(b))
    requires t.procs[p].pc == Read(Marker(b)) && t.procs[q].pc == Read(Marker(b))
    ensures Doomed(s)
  {
    JudgesDead(s, t, p, b);
    var t1 := Goto(t, p, RemoveMarker(b));
    JudgesDead(s, t1, q, b);
    LateRemoverIsFatal(s, Goto(t1, q, RemoveMarker(b)), p, q, b);
  }

  lemma LateRemoverIsFatal(s: State, t: State, p: Pid, q: Pid, b: int)
    requires Leads(s, [], t) && p != q && Live(t, p) && Live(t, q)
    requires t.procs[p].pc == RemoveMarker(b) && t.procs[q].pc == RemoveMarker(b)
    ensures Doomed(s)
  {
    RemovesMarker(s, [], t, p, b);
    WrongRemovalIsFatal(s, At(Removed(t, Marker(b)), p, DropLock(b)), q, b);
  }

  /** Two fresh readers inside one section; a live owner of the marker dies first. */
  lemma TwoInsideAreFatal(s: State, t: State, p: Pid, q: Pid, b: int)
    requires Leads(s, [], t) && p != q && Live(t, p) && Live(t, q) && Marked(t, b)
    requires t.procs[p].pc == Read(Marker(b)) && t.procs[q].pc == Read(Marker(b))
    requires !Holds(t, p, b) && !Holds(t, q, b)
    ensures Doomed(s)
  {
    if NamesNobodyLive(t, Marker(b)) {
      TwoReadersAreFatal(s, t, p, q, b);
    } else {
      var o := t.files[Marker(b)].pid;
      Kills(s, t, o);
      TwoReadersAreFatal(s, Killed(t, o), p, q, b);
    }
  }

  // ---------------------------------------------------------------- a stolen lock

  /** A process inside its section whose lock has been taken away. */
  ghost predicate Robbed(t: State, e: Pid, b: int) {
    && Live(t, e) && InLock(t.procs[e].pc, b) && Lock(b) !in t.files && Marked(t, b)
    && (Holds(t, e, b) ==> t.files[Marker(b)] == Names(e))
    && (t.procs[e].pc == RemoveMarker(b) ==> NamesNobodyLive(t, Marker(b)))
    && (t.procs[e].pc.Probe? && Holds(t, e, b) ==> t.procs[e].pc.owner == e)
  }

  /** It leaves and drops the lock of the process that has entered since; a third enters. */
  lemma LeavingIsFatal(s: State, t: State, e: Pid, b: int)
    requires Leads(s, [], t) && Robbed(t, e, b) && t.procs[e].pc == DropLock(b)
    ensures Doomed(s)
  {
    var r := FreshEnters(s, t, b);
    var t1 := Entered(t, r, b);
    Go(s, t1, Act(e, false));
    var t2 := Goto(Removed(t1, Lock(b)), e, Idle);
    var q := FreshEnters(s, t2, b);
    var t3 := Entered(t2, q, b);
    assert t3.files[Marker(b)] == t.files[Marker(b)];
    if !NamesNobodyLive(t3, Marker(b)) {
      assert Holds(t, t.files[Marker(b)].pid, b);
    }
    TwoInsideAreFatal(s, t3, r, q, b);
  }

  /** It is about to remove a dead marker, which the process that has entered since removes before it. */
  lemma RemovingIsFatal(s: State, t: State, e: Pid, b: int)
    requires Leads(s, [], t) && Robbed(t, e, b) && t.procs[e].pc == RemoveMarker(b)
    ensures Doomed(s)
  {
    var r := FreshEnters(s, t, b);
    var t1 := Entered(t, r, b);
    assert NamesNobodyLive(t1, Marker(b));
    JudgesDead(s, t1, r, b);
    LateRemoverIsFatal(s, Goto(t1, r, RemoveMarker(b)), r, e, b);
  }

  /** It finds the marker aged or not, its owner alive, and leaves. */
  lemma StattingIsFatal(s: State, t: State, e: Pid, b: int)
    requires Leads(s, [], t) && Robbed(t, e, b) && t.procs[e].pc == Stat(Marker(b))
    ensures Doomed(s)
  {
    Go(s, t, Act(e, false));
    LeavingIsFatal(s, Goto(t, e, DropLock(b)), e, b);
  }

  /** It finds the owner it read alive and leaves; or dead, and then whoever the marker names by now dies first. */
  lemma ProbingIsFatal(s: State, t: State, e: Pid, b: int)
    requires Leads(s, [], t) && Robbed(t, e, b) && t.procs[e].pc.Probe?
    ensures Doomed(s)
  {
    if Live(t, t.procs[e].pc.owner) {
      Go(s, t, Act(e, false));
      StattingIsFatal(s, Goto(t, e, Stat(Marker(b))), e, b);
    } else if NamesNobodyLive(t, Marker(b)) {
      Go(s, t, Act(e, false));
      RemovingIsFatal(s, Goto(t, e, RemoveMarker(b)), e, b);
    } else {
      var o := t.files[Marker(b)].pid;
      Kills(s, t, o);
      Go(s, Killed(t, o), Act(e, false));
      RemovingIsFatal(s, Goto(Killed(t, o), e, RemoveMarker(b)), e, b);
    }
  }

  lemma ReadingIsFatal(s: State, t: State, e: Pid, b: int)
    requires Leads(s, [], t) && Robbed(t, e, b) && t.procs[e].pc == Read(Marker(b))
    ensures Doomed(s)
  {
    Go(s, t, Act(e, false));
    if t.files[Marker(b)].Unreadable? {
      RemovingIsFatal(s, Goto(t, e, RemoveMarker(b)), e, b);
    } else {
      ProbingIsFatal(s, Goto(t, e, Probe(Marker(b), t.files[Marker(b)].pid)), e, b);
    }
  }

  lemma RobbedIsFatal(s: State, t: State, e: Pid, b: int)
    requires Leads(s, [], t) && Robbed(t, e, b)
    ensures Doomed(s)
  {
    match t.procs[e].pc
    case Read(_) => ReadingIsFatal(s, t, e, b);
    case Probe(_, _) => ProbingIsFatal(s, t, e, b);
    case Stat(_) => StattingIsFatal(s, t, e, b);
    case RemoveMarker(_) => RemovingIsFatal(s, t, e, b);
    case DropLock(_) => LeavingIsFatal(s, t, e, b);
  }

  // ---------------------------------------------------------------- every hazard is fatal

  lemma VerdictIsFatal(s: State, a: Action)
    requires Inv(s) && Hazards(s, a) != [] && !s.procs[a.p].pc.RemoveLock?
    ensures Doomed(Step(s, a))
  {
    var b, t := s.procs[a.p].pc.path.base, Step(s, a);
    if Marker(b) in s.files {
      assert Holds(s, s.files[Marker(b)].pid, b);
      assert Holds(t, t.files[Marker(b)].pid, b);
    }
    Stay(t);
    WrongRemovalIsFatal(t, t, a.p, b);
  }

  lemma TheftRobs(s: State, a: Action) returns (e: Pid)
    requires Inv(s) && Hazards(s, a) != [] && s.procs[a.p].pc.RemoveLock?
    requires Marker(s.procs[a.p].pc.base) in s.files
    ensures Robbed(Step(s, a), e, s.procs[a.p].pc.base)
  {
    var b, t := s.procs[a.p].pc.base, Step(s, a);
    e := s.files[Lock(b)].pid;
    assert InLock(s.procs[e].pc, b) && t.procs[e] == s.procs[e];
    assert Holds(t, e, b) ==> Holds(s, e, b);
    if !NamesNobodyLive(t, Marker(b)) {
      assert !NamesNobodyLive(s, Marker(b));
      assert Holds(s, s.files[Marker(b)].pid, b);
    }
    if s.procs[e].pc == RemoveMarker(b) {
      assert NamesNobodyLive(s, Marker(b));
    }
  }

  /** The same when the marker had gone: a fresh process claims the base first. */
  lemma TheftRobsUnmarked(s: State, a: Action) returns (e: Pid, q: Pid)
    requires Inv(s) && Hazards(s, a) != [] && s.procs[a.p].pc.RemoveLock?
    requires Marker(s.procs[a.p].pc.base) !in s.files
    ensures var b := s.procs[a.p].pc.base;
      Leads(Step(s, a), [], Owned(Step(s, a), q, b)) && Robbed(Owned(Step(s, a), q, b), e, b)
  {
    var b, t := s.procs[a.p].pc.base, Step(s, a);
    e := s.files[Lock(b)].pid;
    Stay(t);
    q := FreshClaims(t, t, b);
    var u := Owned(t, q, b);
    assert InLock(s.procs[e].pc, b) && u.procs[e] == s.procs[e];
    assert Holds(u, e, b) ==> Holds(s, e, b);
    assert Holds(u, q, b) by {
      assert u.procs[q].claims[0] == b;
    }
    assert s.procs[e].pc == RemoveMarker(b) ==> NamesNobodyLive(s, Marker(b));
  }

  /** After a step that meets a hazard two live processes can come to hold one base without a further one. */
  lemma HazardIsFatal(s: State, a: Action)
    requires Inv(s) && Hazards(s, a) != []
    ensures Doomed(Step(s, a))
  {
    var t := Step(s, a);
    if !s.procs[a.p].pc.RemoveLock? {
      VerdictIsFatal(s, a);
    } else if Marker(s.procs[a.p].pc.base) in s.files {
      var e := TheftRobs(s, a);
      Stay(t);
      RobbedIsFatal(t, t, e, s.procs[a.p].pc.base);
    } else {
      var e, q := TheftRobsUnmarked(s, a);
      RobbedIsFatal(t, Owned(t, q, s.procs[a.p].pc.base), e, s.procs[a.p].pc.base);
    }
  }

  /** A step keeps bases exclusive for all that may follow without a hazard exactly when it meets none itself. */
  lemma StepDoomsExactly(s: State, a: Action)
    requires Inv(s)
    ensures Doomed(Step(s, a)) <==> Hazards(s, a) != []
  {
    if Hazards(s, a) == [] {
      StepKeepsInv(s, a);
      InvIsNotDoomed(Step(s, a));
    } else {
      HazardIsFatal(s, a);
    }
  }

  /**
   * Exactly the runs that meet no hazard never come to a point from which two live processes can hold
   * one base without a further hazard; and they are exclusive throughout.
   */
  lemma {:induction false} ExactlyTheHazardFreeRuns(s: State, actions: seq<Action>)
    requires Inv(s)
    ensures HazardsOf(s, actions) == [] <==>
              forall n :: 0 <= n <= |actions| ==> !Doomed(Run(s, actions[..n]))
    decreases |actions|
  {
    InvIsNotDoomed(s);
    assert Run(s, actions[..0]) == s;
    if actions != [] {
      var s', rest := Step(s, actions[0]), actions[1..];
      assert forall n :: 0 < n <= |actions| ==> actions[..n][0] == actions[0] && actions[..n][1..] == rest[..n - 1];
      if Hazards(s, actions[0]) == [] {
        StepKeepsInv(s, actions[0]);
        ExactlyTheHazardFreeRuns(s', rest);
        RunsShift(s, actions);
      } else {
        HazardIsFatal(s, actions[0]);
        assert Run(s, actions[..1]) == s';
      }
    }
  }

  lemma {:induction false} RunsShift(s: State, actions: seq<Action>)
    requires actions != [] && !Doomed(s)
    ensures (forall n :: 0 <= n <= |actions| ==> !Doomed(Run(s, actions[..n]))) <==>
            (forall n :: 0 <= n <= |actions| - 1 ==> !Doomed(Run(Step(s, actions[0]), actions[1..][..n])))
  {
    var s', rest := Step(s, actions[0]), actions[1..];
    forall n | 0 <= n < |actions|
      ensures Run(s, actions[..n + 1]) == Run(s', rest[..n])
    {
      assert actions[..n + 1][0] == actions[0] && actions[..n + 1][1..] == rest[..n];
    }
    forall n | 0 <= n <= |actions| && Doomed(Run(s, actions[..n]))
      ensures exists m :: 0 <= m <= |actions| - 1 && Doomed(Run(s', rest[..m]))
    {
      assert actions[..0] == [];
      assert n > 0;
      assert Doomed(Run(s', rest[..n - 1]));
    }
    forall m | 0 <= m <= |actions| - 1 && Doomed(Run(s', rest[..m]))
      ensures exists n :: 0 <= n <= |actions| && Doomed(Run(s, actions[..n]))
    {
      assert Doomed(Run(s, actions[..m + 1]));
    }
  }

  // ---------------------------------------------------------------- every hazard occurs

  const NOTHING_YET := State(map[], map[])

  lemma Compose(s: State, first: seq<Hazard>, t: State, second: seq<Hazard>, u: State)
    requires Leads(s, first, t) && Leads(t, second, u)
    ensures Leads(s, first + second, u)
  {
    var a :| Run(s, a) == t && HazardsOf(s, a) == first;
    var b :| Run(t, b) == u && HazardsOf(t, b) == second;
    RunAppend(s, a, b);
  }

  lemma ComposeBreak(s: State, t: State, h: Hazard, b: int)
    requires Leads(s, [], t) && Breaks(t, h, b)
    ensures Breaks(s, h, b)
  {
    var u :| Leads(t, [h], u) && Overlap(u, b);
    Compose(s, [], t, [h], u);
    assert [] + [h] == [h];
  }

  /** Six processes, and nothing else. */
  lemma SpawnsSix() returns (t: State)
    ensures Leads(NOTHING_YET, [], t) && t.files == map[]
    ensures forall p :: p in t.procs <==> 0 <= p < 6
    ensures forall p :: 0 <= p < 6 ==> t.procs[p] == Process(true, Idle, [])
  {
    t := NOTHING_YET;
    Stay(t);
    for n := 0 to 6
      invariant Leads(NOTHING_YET, [], t) && t.files == map[]
      invariant forall p :: p in t.procs <==> 0 <= p < n
      invariant forall p :: 0 <= p < n ==> t.procs[p] == Process(true, Idle, [])
    {
      Go(NOTHING_YET, t, Spawn(n));
      t := Idler(t, n);
    }
  }

  /** The first of them claims the base. */
  lemma SetsUp(b: int) returns (s: State)
    ensures Leads(NOTHING_YET, [], s) && s.files == map[Marker(b) := Names(0)]
    ensures IdleAt(s, 0) && IdleAt(s, 1) && IdleAt(s, 2) && IdleAt(s, 3) && IdleAt(s, 4) && IdleAt(s, 5)
    ensures s.procs[0].claims == [b]
  {
    var t := SpawnsSix();
    Claims(NOTHING_YET, [], t, 0, b);
    s := Claimed(t, 0, b);
    assert [] + [b] == [b];
  }

  /** The scene of a base whose owner is live. */
  lemma LiveScene(b: int) returns (s: State)
    ensures Leads(NOTHING_YET, [], s) && Scene(s, b, 0, 1, 2, 3) && Lock(b) !in s.files
    ensures IdleAt(s, 0) && s.procs[0].claims == [b] && Holds(s, 0, b)
  {
    s := SetsUp(b);
    assert s.procs[0].claims[0] == b;
  }

  /** The scene of a base whose owner has died. */
  lemma DeadScene(b: int) returns (s: State)
    ensures Leads(NOTHING_YET, [], s) && Scene(s, b, 0, 1, 2, 3) && Lock(b) !in s.files && !Live(s, 0)
    ensures IdleAt(s, 4) && IdleAt(s, 5)
  {
    var t := SetsUp(b);
    Kills(NOTHING_YET, t, 0);
    s := Killed(t, 0);
  }

  /** The same, and the process that held its reclaim lock has died inside. */
  lemma DeadLockScene(b: int) returns (s: State)
    ensures Leads(NOTHING_YET, [], s) && Scene(s, b, 0, 1, 2, 3) && !Live(s, 0)
    ensures IdleAt(s, 4) && Lock(b) in s.files && s.files[Lock(b)] == Names(5) && !Live(s, 5)
  {
    var t := DeadScene(b);
    FindsTaken(NOTHING_YET, [], t, 5, b);
    TakesLock(NOTHING_YET, [], t, 5, b);
    var u := Locked(t, 5, b, Read(Marker(b)));
    Kills(NOTHING_YET, u, 5);
    s := Killed(u, 5);
  }

  /** From a machine with no files and no processes each hazard, as the only one, leads to two holders of one base. */
  lemma EveryHazardHappens(h: Hazard, b: int)
    ensures Initial(NOTHING_YET) && Breaks(NOTHING_YET, h, b)
  {
    var s: State;
    match h {
      case Backstop =>
        s := LiveScene(b);
        AgedMarker(s, b, 0, 1, 2, 3);
      case VanishedBeforeStat =>
        s := LiveScene(b);
        ReleaseBeforeStat(s, b, 0, 1, 2, 3);
      case StaleProbe =>
        s := LiveScene(b);
        ReleaseThenExit(s, b, 0, 1, 2, 3);
      case VanishedBeforeRead =>
        s := DeadScene(b);
        SecondReclaimer(s, b, 0, 1, 2, 3, 4);
      case LockTheft =>
        s := DeadLockScene(b);
        TwoRecoverers(s, b, 0, 1, 2, 3, 4, 5);
    }
    ComposeBreak(NOTHING_YET, s, h, b);
  }
}

/**
 * Why exclusion needs its conditions: for each hazard, a run that meets it exactly once and ends with
 * two live processes holding the same base. The runs start from any state with the files and the
 * idle processes they name, whatever else is going on around them.
 */
module PortBaseTraces {
  import opened PortBase

  /** Some run leads from `s` to `t` and meets the hazards `met`. */
  ghost predicate Leads(s: State, met: seq<Hazard>, t: State) {
    exists actions :: Run(s, actions) == t && HazardsOf(s, actions) == met
  }

  /** Two live processes hold base `b`. */
  ghost predicate Overlap(s: State, b: int) {
    exists p, q :: p != q && Holds(s, p, b) && Holds(s, q, b)
  }

  /** From `s` a run that meets the hazards `met` ends in an overlap. */
  ghost predicate Overlaps(s: State, met: seq<Hazard>, b: int) {
    exists t :: Leads(s, met, t) && Overlap(t, b)
  }

  /** From `s` a run that meets one hazard, `h`, ends in an overlap. */
  ghost predicate Breaks(s: State, h: Hazard, b: int) {
    Overlaps(s, [h], b)
  }

  ghost predicate IdleAt(s: State, p: Pid) {
    Live(s, p) && s.procs[p].pc == Idle
  }

  lemma {:induction false} RunAppend(s: State, a: seq<Action>, b: seq<Action>)
    ensures Run(s, a + b) == Run(Run(s, a), b)
    ensures HazardsOf(s, a + b) == HazardsOf(s, a) + HazardsOf(Run(s, a), b)
    decreases |a|
  {
    if a == [] {
      assert a + b == b;
    } else {
      assert (a + b)[0] == a[0] && (a + b)[1..] == a[1..] + b;
      RunAppend(Step(s, a[0]), a[1..], b);
    }
  }

  lemma Then(s: State, met: seq<Hazard>, t: State, a: Action)
    requires Leads(s, met, t)
    ensures Leads(s, met + Hazards(t, a), Step(t, a))
  {
    var actions :| Run(s, actions) == t && HazardsOf(s, actions) == met;
    RunAppend(s, actions, [a]);
    assert [a][1..] == [];
    assert HazardsOf(t, [a]) == Hazards(t, a) + [];
  }

  lemma Stay(s: State)
    ensures Leads(s, [], s)
  {
    assert Run(s, []) == s;
  }

  // ---------------------------------------------------------------- common stretches

  function At(s: State, p: Pid, pc: Pc): State
    requires p in s.procs
  {
    Goto(s, p, pc)
  }

  function Claimed(s: State, p: Pid, b: int): State
    requires p in s.procs
  {
    State(s.files[Marker(b) := Names(p)], s.procs[p := Process(true, Idle, s.procs[p].claims + [b])])
  }

  function Released(s: State, p: Pid): State
    requires p in s.procs && s.procs[p].claims != []
  {
    var me := s.procs[p];
    State(Without(s.files, Marker(me.claims[0])), s.procs[p := Process(true, Releasing, me.claims[1..])])
  }

  function Locked(s: State, p: Pid, b: int, pc: Pc): State
    requires p in s.procs
  {
    At(s.(files := s.files[Lock(b) := Names(p)]), p, pc)
  }

  /** An idle process claims a free base. */
  lemma Claims(s: State, met: seq<Hazard>, t: State, p: Pid, b: int)
    requires Leads(s, met, t) && IdleAt(t, p) && Marker(b) !in t.files
    ensures Leads(s, met, Claimed(t, p, b))
  {
    Then(s, met, t, BeginClaim(p, b));
    Then(s, met, At(t, p, LinkMarker(b)), Act(p, false));
    assert At(t, p, LinkMarker(b)).procs[p := Process(true, Idle, t.procs[p].claims + [b])] == Claimed(t, p, b).procs;
    assert met + [] == met;
  }

  /** An idle process releases the first base it holds. */
  lemma Releases(s: State, met: seq<Hazard>, t: State, p: Pid)
    requires Leads(s, met, t) && IdleAt(t, p) && t.procs[p].claims != []
    ensures Leads(s, met, Released(t, p))
  {
    Then(s, met, t, BeginRelease(p));
    Then(s, met, At(t, p, Releasing), Act(p, false));
    assert At(t, p, Releasing).procs[p := Process(true, Releasing, t.procs[p].claims[1..])] == Released(t, p).procs;
    assert met + [] == met;
  }

  /** An idle process finds the base taken. */
  lemma FindsTaken(s: State, met: seq<Hazard>, t: State, p: Pid, b: int)
    requires Leads(s, met, t) && IdleAt(t, p) && Marker(b) in t.files
    ensures Leads(s, met, At(t, p, LinkLock(b)))
  {
    Then(s, met, t, BeginClaim(p, b));
    Then(s, met, At(t, p, LinkMarker(b)), Act(p, false));
    assert At(At(t, p, LinkMarker(b)), p, LinkLock(b)) == At(t, p, LinkLock(b));
    assert met + [] == met;
  }

  /** A process that found the base taken takes the free reclaim lock. */
  lemma TakesLock(s: State, met: seq<Hazard>, t: State, p: Pid, b: int)
    requires Live(t, p) && Leads(s, met, At(t, p, LinkLock(b))) && Lock(b) !in t.files
    ensures Leads(s, met, Locked(t, p, b, Read(Marker(b))))
  {
    Then(s, met, At(t, p, LinkLock(b)), Act(p, false));
    assert Call(At(t, p, LinkLock(b)), p, false) == Locked(t, p, b, Read(Marker(b)));
    assert met + [] == met;
  }

  /** A move of one process that changes nothing but where it is. */
  lemma Moves(s: State, met: seq<Hazard>, t: State, p: Pid, from: Pc, aged: bool, to: Pc)
    requires Live(t, p) && Leads(s, met, At(t, p, from))
    requires Call(At(t, p, from), p, aged) == At(At(t, p, from), p, to)
    ensures Leads(s, met + Hazards(At(t, p, from), Act(p, aged)), At(t, p, to))
  {
    Then(s, met, At(t, p, from), Act(p, aged));
    assert At(At(t, p, from), p, to) == At(t, p, to);
  }

  lemma ReadsName(s: State, met: seq<Hazard>, t: State, p: Pid, path: Path, owner: Pid)
    requires Live(t, p) && Leads(s, met, At(t, p, Read(path))) && path in t.files && t.files[path] == Names(owner)
    ensures Leads(s, met, At(t, p, Probe(path, owner)))
  {
    Moves(s, met, t, p, Read(path), false, Probe(path, owner));
    assert met + [] == met;
  }

  lemma ReadsNothing(s: State, t: State, p: Pid, b: int)
    requires Live(t, p) && Leads(s, [], At(t, p, Read(Marker(b)))) && Marker(b) !in t.files
    ensures Leads(s, [VanishedBeforeRead], At(t, p, RemoveMarker(b)))
  {
    Moves(s, [], t, p, Read(Marker(b)), false, RemoveMarker(b));
  }

  lemma FindsOwnerAlive(s: State, t: State, p: Pid, b: int, owner: Pid)
    requires Live(t, p) && Leads(s, [], At(t, p, Probe(Marker(b), owner))) && Live(t, owner)
    ensures Leads(s, [], At(t, p, Stat(Marker(b))))
  {
    Moves(s, [], t, p, Probe(Marker(b), owner), false, Stat(Marker(b)));
  }

  lemma FindsOwnerDead(s: State, met: seq<Hazard>, t: State, p: Pid, b: int, owner: Pid)
    requires Live(t, p) && Leads(s, met, At(t, p, Probe(Marker(b), owner)))
    requires Marker(b) in t.files && t.files[Marker(b)] == Names(owner) && !Live(t, owner)
    ensures Leads(s, met, At(t, p, RemoveMarker(b)))
  {
    Moves(s, met, t, p, Probe(Marker(b), owner), false, RemoveMarker(b));
    assert met + [] == met;
  }

  lemma FindsOwnerDeadTooLate(s: State, t: State, p: Pid, b: int, owner: Pid)
    requires Live(t, p) && Leads(s, [], At(t, p, Probe(Marker(b), owner))) && Marker(b) !in t.files && !Live(t, owner)
    ensures Leads(s, [StaleProbe], At(t, p, RemoveMarker(b)))
  {
    Moves(s, [], t, p, Probe(Marker(b), owner), false, RemoveMarker(b));
  }

  lemma StatsNothing(s: State, t: State, p: Pid, b: int)
    requires Live(t, p) && Leads(s, [], At(t, p, Stat(Marker(b)))) && Marker(b) !in t.files
    ensures Leads(s, [VanishedBeforeStat], At(t, p, RemoveMarker(b)))
  {
    Moves(s, [], t, p, Stat(Marker(b)), false, RemoveMarker(b));
  }

  lemma StatsAged(s: State, t: State, p: Pid, b: int)
    requires Live(t, p) && Leads(s, [], At(t, p, Stat(Marker(b)))) && Marker(b) in t.files && !NamesNobodyLive(t, Marker(b))
    ensures Leads(s, [Backstop], At(t, p, RemoveMarker(b)))
  {
    Moves(s, [], t, p, Stat(Marker(b)), true, RemoveMarker(b));
  }

  /** A process about to remove the marker does so, whoever it names by now. */
  lemma RemovesMarker(s: State, met: seq<Hazard>, t: State, p: Pid, b: int)
    requires Live(t, p) && t.procs[p].pc == RemoveMarker(b) && Leads(s, met, t)
    ensures Leads(s, met, At(Removed(t, Marker(b)), p, DropLock(b)))
  {
    Then(s, met, t, Act(p, false));
    assert met + [] == met;
  }

  /** The common end: `p` removes the marker of the live holder `q`, and `c` claims the base as well. */
  lemma RemovalOverlaps(s: State, met: seq<Hazard>, t: State, b: int, p: Pid, q: Pid, c: Pid)
    requires Leads(s, met, t) && Live(t, p) && t.procs[p].pc == RemoveMarker(b)
    requires Holds(t, q, b) && IdleAt(t, c) && c != q && c != p
    ensures Overlaps(s, met, b)
  {
    RemovesMarker(s, met, t, p, b);
    var t1 := At(Removed(t, Marker(b)), p, DropLock(b));
    Claims(s, met, t1, c, b);
    var t2 := Claimed(t1, c, b);
    assert Holds(t2, q, b);
    assert Holds(t2, c, b) by {
      assert t2.procs[c].claims[|t.procs[c].claims|] == b;
    }
  }

  /** The same end when the marker had gone by the time of the verdict: `q` claims the free base first. */
  lemma NextOwnerLoses(s: State, met: seq<Hazard>, t: State, b: int, p: Pid, q: Pid, c: Pid)
    requires Leads(s, met, t) && Live(t, p) && t.procs[p].pc == RemoveMarker(b) && Marker(b) !in t.files
    requires IdleAt(t, q) && IdleAt(t, c) && p != q && c != q && c != p
    ensures Overlaps(s, met, b)
  {
    Claims(s, met, t, q, b);
    assert Claimed(t, q, b).procs[q].claims[|t.procs[q].claims|] == b;
    RemovalOverlaps(s, met, Claimed(t, q, b), b, p, q, c);
  }

  /** A process that judged the lock abandoned replaces it, and finds the marker of the dead `d`. */
  lemma RecoversLock(s: State, met: seq<Hazard>, t: State, p: Pid, b: int, d: Pid)
    requires Live(t, p) && Leads(s, met, At(t, p, RemoveLock(b)))
    requires Marker(b) in t.files && t.files[Marker(b)] == Names(d) && !Live(t, d)
    ensures Leads(s, met + Hazards(At(t, p, RemoveLock(b)), Act(p, false)), Locked(t, p, b, RemoveMarker(b)))
  {
    var met' := met + Hazards(At(t, p, RemoveLock(b)), Act(p, false));
    Then(s, met, At(t, p, RemoveLock(b)), Act(p, false));
    var t1 := At(Removed(t, Lock(b)), p, RelinkLock(b));
    assert Call(At(t, p, RemoveLock(b)), p, false) == t1;
    Then(s, met', t1, Act(p, false));
    var held := t.(files := t.files[Lock(b) := Names(p)]);
    assert t1.files[Lock(b) := Names(p)] == held.files;
    assert Call(t1, p, false) == At(held, p, Read(Marker(b)));
    assert met' + [] == met';
    ReadsName(s, met', held, p, Marker(b), d);
    FindsOwnerDead(s, met', held, p, b, d);
  }

  /** A process that finds the base taken and the lock free reads who owns the marker. */
  lemma ReadsOwner(s: State, met: seq<Hazard>, t: State, p: Pid, b: int, owner: Pid)
    requires Leads(s, met, t) && IdleAt(t, p)
    requires Marker(b) in t.files && t.files[Marker(b)] == Names(owner) && Lock(b) !in t.files
    ensures Leads(s, met, Locked(t, p, b, Probe(Marker(b), owner)))
  {
    FindsTaken(s, met, t, p, b);
    TakesLock(s, met, t, p, b);
    ReadsName(s, met, t.(files := t.files[Lock(b) := Names(p)]), p, Marker(b), owner);
  }

  /** A reclaimer inside the lock finds the owner dead, removes the marker and leaves. */
  lemma Reclaims(s: State, met: seq<Hazard>, t: State, p: Pid, b: int, owner: Pid) returns (u: State)
    requires Live(t, p) && t.procs[p].pc == Probe(Marker(b), owner) && Leads(s, met, t)
    requires Marker(b) in t.files && t.files[Marker(b)] == Names(owner) && !Live(t, owner)
    ensures Leads(s, met, u) && Marker(b) !in u.files && Lock(b) !in u.files
    ensures u.procs == t.procs[p := t.procs[p].(pc := Idle)]
  {
    assert At(t, p, Probe(Marker(b), owner)) == t;
    FindsOwnerDead(s, met, t, p, b, owner);
    RemovesMarker(s, met, At(t, p, RemoveMarker(b)), p, b);
    var t1 := At(Removed(At(t, p, RemoveMarker(b)), Marker(b)), p, DropLock(b));
    Then(s, met, t1, Act(p, false));
    u := At(Removed(t1, Lock(b)), p, Idle);
  }

  // ---------------------------------------------------------------- one run for each hazard

  /** The files and processes the runs start from: `b` is marked `owner`, the lock is free, four processes idle. */
  ghost predicate Scene(s: State, b: int, owner: Pid, r: Pid, q: Pid, c: Pid) {
    && Marker(b) in s.files && s.files[Marker(b)] == Names(owner)
    && IdleAt(s, r) && IdleAt(s, q) && IdleAt(s, c)
    && r != q && r != c && q != c && owner != r && owner != q && owner != c
  }

  /** The age backstop removes the marker of an owner that is still running. */
  lemma AgedMarker(s: State, b: int, owner: Pid, r: Pid, q: Pid, c: Pid)
    requires Scene(s, b, owner, r, q, c) && Lock(b) !in s.files && Holds(s, owner, b)
    ensures Breaks(s, Backstop, b)
  {
    Stay(s);
    ReadsOwner(s, [], s, r, b, owner);
    var held := s.(files := s.files[Lock(b) := Names(r)]);
    FindsOwnerAlive(s, held, r, b, owner);
    StatsAged(s, held, r, b);
    RemovalOverlaps(s, [Backstop], At(held, r, RemoveMarker(b)), b, r, owner, c);
  }

  /** The owner releases between the probe of its pid and the age check: a missing file counts as too old. */
  lemma ReleaseBeforeStat(s: State, b: int, owner: Pid, r: Pid, q: Pid, c: Pid)
    requires Scene(s, b, owner, r, q, c) && Lock(b) !in s.files
    requires IdleAt(s, owner) && s.procs[owner].claims == [b]
    ensures Breaks(s, VanishedBeforeStat, b)
  {
    Stay(s);
    ReadsOwner(s, [], s, r, b, owner);
    var held := s.(files := s.files[Lock(b) := Names(r)]);
    FindsOwnerAlive(s, held, r, b, owner);
    var t1 := At(held, r, Stat(Marker(b)));
    Releases(s, [], t1, owner);
    var t2 := Released(t1, owner);
    assert At(t2, r, Stat(Marker(b))) == t2;
    StatsNothing(s, t2, r, b);
    NextOwnerLoses(s, [VanishedBeforeStat], At(t2, r, RemoveMarker(b)), b, r, q, c);
  }

  /**
   * The owner releases and exits between the read of its marker and the probe of its pid. Every file
   * that was read was there, nobody died inside the locked section and no pid was reused.
   */
  lemma ReleaseThenExit(s: State, b: int, owner: Pid, r: Pid, q: Pid, c: Pid)
    requires Scene(s, b, owner, r, q, c) && Lock(b) !in s.files
    requires IdleAt(s, owner) && s.procs[owner].claims == [b]
    ensures Breaks(s, StaleProbe, b)
  {
    Stay(s);
    ReadsOwner(s, [], s, r, b, owner);
    var t1 := Locked(s, r, b, Probe(Marker(b), owner));
    Releases(s, [], t1, owner);
    var t2 := Released(t1, owner);
    Then(s, [], t2, Die(owner));
    var t3 := t2.(procs := t2.procs[owner := t2.procs[owner].(alive := false)]);
    assert At(t3, r, Probe(Marker(b), owner)) == t3;
    FindsOwnerDeadTooLate(s, t3, r, b, owner);
    NextOwnerLoses(s, [StaleProbe], At(t3, r, RemoveMarker(b)), b, r, q, c);
  }

  /**
   * Two reclaimers, and no release at all. The first removes the marker of a dead process while the
   * second, whose claim had already failed, waits for the lock and then reads nothing.
   */
  lemma SecondReclaimer(s: State, b: int, owner: Pid, r: Pid, q: Pid, c: Pid, first: Pid)
    requires Scene(s, b, owner, r, q, c) && Lock(b) !in s.files && !Live(s, owner)
    requires IdleAt(s, first) && first != r && first != q && first != c
    ensures Breaks(s, VanishedBeforeRead, b)
  {
    Stay(s);
    FindsTaken(s, [], s, r, b);
    var waiting := At(s, r, LinkLock(b));
    ReadsOwner(s, [], waiting, first, b, owner);
    var t2 := Reclaims(s, [], Locked(waiting, first, b, Probe(Marker(b), owner)), first, b, owner);
    assert At(t2, r, LinkLock(b)) == t2;
    TakesLock(s, [], t2, r, b);
    var t3 := t2.(files := t2.files[Lock(b) := Names(r)]);
    ReadsNothing(s, t3, r, b);
    NextOwnerLoses(s, [VanishedBeforeRead], At(t3, r, RemoveMarker(b)), b, r, q, c);
  }

  /** A process that finds the base and the lock taken by dead processes judges the lock abandoned. */
  lemma JudgesLockDead(s: State, t: State, p: Pid, b: int, e: Pid)
    requires Leads(s, [], t) && IdleAt(t, p) && Marker(b) in t.files
    requires Lock(b) in t.files && t.files[Lock(b)] == Names(e) && !Live(t, e)
    ensures Leads(s, [], At(t, p, RemoveLock(b)))
  {
    FindsTaken(s, [], t, p, b);
    Moves(s, [], t, p, LinkLock(b), false, Read(Lock(b)));
    ReadsName(s, [], t, p, Lock(b), e);
    Moves(s, [], t, p, Probe(Lock(b), e), false, RemoveLock(b));
  }

  /** Of two processes that judged the lock abandoned, the second removes the one the first has taken. */
  lemma SecondStealsLock(s: State, t: State, b: int, owner: Pid, first: Pid, second: Pid, e: Pid)
    requires Leads(s, [], t) && Live(t, first) && Live(t, second) && first != second
    requires t.procs[first].pc == RemoveLock(b) && t.procs[second].pc == RemoveLock(b)
    requires Lock(b) in t.files && t.files[Lock(b)] == Names(e) && !Live(t, e)
    requires Marker(b) in t.files && t.files[Marker(b)] == Names(owner) && !Live(t, owner)
    ensures Leads(s, [LockTheft], Locked(Locked(t, first, b, RemoveMarker(b)), second, b, RemoveMarker(b)))
  {
    assert At(t, first, RemoveLock(b)) == t;
    RecoversLock(s, [], t, first, b, owner);
    var t1 := Locked(t, first, b, RemoveMarker(b));
    assert At(t1, second, RemoveLock(b)) == t1;
    RecoversLock(s, [], t1, second, b, owner);
  }

  /**
   * Two processes recover the lock of a holder that died inside it. The second removes the lock the
   * first has just taken, both are inside, and the slower one removes the next owner's marker.
   */
  lemma TwoRecoverers(s: State, b: int, owner: Pid, r: Pid, q: Pid, c: Pid, first: Pid, e: Pid)
    requires Scene(s, b, owner, r, q, c) && !Live(s, owner)
    requires Lock(b) in s.files && s.files[Lock(b)] == Names(e) && !Live(s, e)
    requires IdleAt(s, first) && first != r && first != q && first != c
    ensures Breaks(s, LockTheft, b)
  {
    Stay(s);
    JudgesLockDead(s, s, first, b, e);
    var t1 := At(s, first, RemoveLock(b));
    JudgesLockDead(s, t1, r, b, e);
    var t2 := At(t1, r, RemoveLock(b));
    SecondStealsLock(s, t2, b, owner, first, r, e);
    var t4 := Locked(Locked(t2, first, b, RemoveMarker(b)), r, b, RemoveMarker(b));
    RemovesMarker(s, [LockTheft], t4, first, b);
    NextOwnerLoses(s, [LockTheft], At(Removed(t4, Marker(b)), first, DropLock(b)), b, r, q, c);
  }
}

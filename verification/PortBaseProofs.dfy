/** Mutual exclusion of port-base claims over all interleavings, and what it depends on. */
module PortBaseProofs {
  import opened PortBase

  /** The section guarded by the reclaim lock of base `b`. */
  predicate InLock(pc: Pc, b: int) {
    pc == Read(Marker(b)) || (pc.Probe? && pc.path == Marker(b)) || pc == Stat(Marker(b))
    || pc == RemoveMarker(b) || pc == DropLock(b)
  }

  /** Every pid a file or an inspection names is one that has existed. */
  ghost predicate PidsKnown(s: State) {
    && (forall path :: path in s.files && s.files[path].Names? ==> s.files[path].pid in s.procs)
    && (forall p :: p in s.procs && s.procs[p].pc.Probe? ==> s.procs[p].pc.owner in s.procs)
  }

  /** The marker of a held base names its holder. */
  ghost predicate ClaimsMarked(s: State) {
    forall p, b :: Holds(s, p, b) ==> Marker(b) in s.files && s.files[Marker(b)] == Names(p)
  }

  ghost predicate ClaimsDistinct(s: State) {
    forall p, i, j :: p in s.procs && 0 <= i < j < |s.procs[p].claims| ==> s.procs[p].claims[i] != s.procs[p].claims[j]
  }

  /** The reclaim lock names the process inside its section. */
  ghost predicate LocksNameHolder(s: State) {
    forall p, b :: Live(s, p) && InLock(s.procs[p].pc, b) ==> Lock(b) in s.files && s.files[Lock(b)] == Names(p)
  }

  /** A marker about to be removed is there and names nobody live. */
  ghost predicate RemovalsSound(s: State) {
    forall p, b :: Live(s, p) && s.procs[p].pc == RemoveMarker(b) ==> NamesNobodyLive(s, Marker(b))
  }

  /** A reclaim lock that names a live process is held by one inside its section. */
  ghost predicate LocksHeld(s: State) {
    forall b :: Lock(b) in s.files && !NamesNobodyLive(s, Lock(b)) ==> InLock(s.procs[s.files[Lock(b)].pid].pc, b)
  }

  /** A marker that names a live process is held by it. */
  ghost predicate MarkersHeld(s: State) {
    forall b :: Marker(b) in s.files && !NamesNobodyLive(s, Marker(b)) ==> Holds(s, s.files[Marker(b)].pid, b)
  }

  /** A process that holds a base it tries to reclaim has read its own name. */
  ghost predicate OwnProbes(s: State) {
    forall p, b :: Holds(s, p, b) && s.procs[p].pc.Probe? && s.procs[p].pc.path == Marker(b) ==> s.procs[p].pc.owner == p
  }

  ghost predicate Inv(s: State) {
    && PidsKnown(s) && ClaimsMarked(s) && ClaimsDistinct(s) && LocksNameHolder(s) && RemovalsSound(s)
    && LocksHeld(s) && MarkersHeld(s) && OwnProbes(s)
  }

  /** At most one process is live inside the section of one reclaim lock. */
  ghost predicate SectionsExclusive(s: State) {
    forall p, q, b :: Live(s, p) && Live(s, q) && InLock(s.procs[p].pc, b) && InLock(s.procs[q].pc, b) ==> p == q
  }

  /** At most one live process holds a base. */
  ghost predicate ClaimsExclusive(s: State) {
    forall p, q, b :: Holds(s, p, b) && Holds(s, q, b) ==> p == q
  }

  /** What users are promised: one live holder per base, which its marker names and nobody removes from under it. */
  ghost predicate Exclusive(s: State) {
    ClaimsExclusive(s) && ClaimsMarked(s) && SectionsExclusive(s) && RemovalsSound(s)
  }

  lemma InvMeansExclusive(s: State)
    requires Inv(s)
    ensures Exclusive(s)
  {
    forall p, q, b | Live(s, p) && Live(s, q) && InLock(s.procs[p].pc, b) && InLock(s.procs[q].pc, b)
      ensures p == q
    {
      assert s.files[Lock(b)] == Names(p) && s.files[Lock(b)] == Names(q);
    }
    forall p, q, b | Holds(s, p, b) && Holds(s, q, b)
      ensures p == q
    {
      assert s.files[Marker(b)] == Names(p) && s.files[Marker(b)] == Names(q);
    }
  }

  /** A machine whose processes are all gone, with whatever files they left, satisfies the invariant. */
  lemma InitialInv(s: State)
    requires Initial(s)
    ensures Inv(s)
  {
  }

  lemma CallKeepsPids(s: State, p: Pid, aged: bool)
    requires PidsKnown(s) && Live(s, p)
    ensures PidsKnown(Call(s, p, aged))
  {
  }

  lemma CallKeepsDistinct(s: State, p: Pid, aged: bool)
    requires ClaimsMarked(s) && ClaimsDistinct(s) && Live(s, p)
    ensures ClaimsDistinct(Call(s, p, aged))
  {
    var s', me := Call(s, p, aged), s.procs[p];
    if me.pc.LinkMarker? && Marker(me.pc.base) !in s.files {
      assert me.pc.base !in me.claims by {
        assert me.pc.base in me.claims ==> Holds(s, p, me.pc.base);
      }
    }
  }

  lemma OwnLock(s: State, p: Pid, aged: bool, b: int)
    requires LocksNameHolder(s) && Live(s, p) && InLock(Call(s, p, aged).procs[p].pc, b)
    ensures Lock(b) in Call(s, p, aged).files && Call(s, p, aged).files[Lock(b)] == Names(p)
  {
    var pc := s.procs[p].pc;
    assert pc == LinkLock(b) || pc == RelinkLock(b) || InLock(pc, b);
  }

  lemma OthersLock(s: State, p: Pid, aged: bool, q: Pid, b: int)
    requires LocksNameHolder(s) && Live(s, p) && Hazards(s, Act(p, aged)) == []
    requires Live(s, q) && q != p && InLock(s.procs[q].pc, b)
    ensures Lock(b) in Call(s, p, aged).files && Call(s, p, aged).files[Lock(b)] == Names(q)
  {
    assert Lock(b) in s.files && s.files[Lock(b)] == Names(q);
    assert s.procs[p].pc != DropLock(b) && s.procs[p].pc != RemoveLock(b);
  }

  lemma CallKeepsLocks(s: State, p: Pid, aged: bool)
    requires LocksNameHolder(s) && Live(s, p) && Hazards(s, Act(p, aged)) == []
    ensures LocksNameHolder(Call(s, p, aged))
  {
    var s' := Call(s, p, aged);
    forall q, b | Live(s', q) && InLock(s'.procs[q].pc, b)
      ensures Lock(b) in s'.files && s'.files[Lock(b)] == Names(q)
    {
      if q == p {
        OwnLock(s, p, aged, b);
      } else {
        OthersLock(s, p, aged, q, b);
      }
    }
  }

  /** A process comes to remove a marker only from a verdict that is right. */
  lemma OwnRemoval(s: State, p: Pid, aged: bool, b: int)
    requires Live(s, p) && Hazards(s, Act(p, aged)) == [] && Call(s, p, aged).procs[p].pc == RemoveMarker(b)
    ensures NamesNobodyLive(Call(s, p, aged), Marker(b))
  {
    var pc := s.procs[p].pc;
    assert pc == Read(Marker(b)) || (pc.Probe? && pc.path == Marker(b)) || pc == Stat(Marker(b));
  }

  /** Nobody else touches a marker that a process in the locked section is about to remove. */
  lemma OthersRemoval(s: State, p: Pid, aged: bool, q: Pid, b: int)
    requires Inv(s) && Live(s, p) && Live(s, q) && q != p && s.procs[q].pc == RemoveMarker(b)
    ensures NamesNobodyLive(Call(s, p, aged), Marker(b))
  {
    var me := s.procs[p];
    assert NamesNobodyLive(s, Marker(b));
    assert InLock(s.procs[q].pc, b);
    assert !InLock(me.pc, b) by {
      InvMeansExclusive(s);
    }
    assert !Holds(s, p, b);
    assert me.claims != [] ==> Holds(s, p, me.claims[0]);
  }

  lemma CallKeepsRemovals(s: State, p: Pid, aged: bool)
    requires Inv(s) && Live(s, p) && Hazards(s, Act(p, aged)) == []
    ensures RemovalsSound(Call(s, p, aged))
  {
    var s' := Call(s, p, aged);
    forall q, b | Live(s', q) && s'.procs[q].pc == RemoveMarker(b)
      ensures NamesNobodyLive(s', Marker(b))
    {
      if q == p {
        OwnRemoval(s, p, aged, b);
      } else {
        OthersRemoval(s, p, aged, q, b);
      }
    }
  }

  /** A base that is held before and after the call of any process has its marker left alone. */
  lemma HeldStaysMarked(s: State, p: Pid, aged: bool, q: Pid, b: int)
    requires Inv(s) && Live(s, p) && Holds(s, q, b) && Holds(Call(s, p, aged), q, b)
    ensures Marker(b) in Call(s, p, aged).files && Call(s, p, aged).files[Marker(b)] == Names(q)
  {
    var me := s.procs[p];
    assert Marker(b) in s.files && s.files[Marker(b)] == Names(q);
    assert me.pc == RemoveMarker(b) ==> NamesNobodyLive(s, Marker(b));
    assert me.claims != [] ==> Holds(s, p, me.claims[0]);
  }

  lemma CallKeepsClaims(s: State, p: Pid, aged: bool)
    requires Inv(s) && Live(s, p) && Hazards(s, Act(p, aged)) == []
    ensures ClaimsMarked(Call(s, p, aged))
  {
    var s', me := Call(s, p, aged), s.procs[p];
    forall q, b | Holds(s', q, b)
      ensures Marker(b) in s'.files && s'.files[Marker(b)] == Names(q)
    {
      if !(q == p && me.pc == LinkMarker(b) && Marker(b) !in s.files) {
        assert Holds(s, q, b);
        HeldStaysMarked(s, p, aged, q, b);
      }
    }
  }

  /** A process leaves its section only by dropping the lock. */
  lemma StaysInside(s: State, p: Pid, aged: bool, q: Pid, b: int)
    requires Live(s, p) && q in s.procs && InLock(s.procs[q].pc, b) && Lock(b) in Call(s, p, aged).files
    ensures InLock(Call(s, p, aged).procs[q].pc, b)
  {
  }

  lemma CallKeepsLocksHeld(s: State, p: Pid, aged: bool)
    requires Inv(s) && Live(s, p) && Hazards(s, Act(p, aged)) == []
    ensures LocksHeld(Call(s, p, aged))
  {
    var s', pc := Call(s, p, aged), s.procs[p].pc;
    forall b | Lock(b) in s'.files && !NamesNobodyLive(s', Lock(b))
      ensures InLock(s'.procs[s'.files[Lock(b)].pid].pc, b)
    {
      if !((pc == LinkLock(b) || pc == RelinkLock(b)) && Lock(b) !in s.files) {
        assert s'.files[Lock(b)] == s.files[Lock(b)];
        StaysInside(s, p, aged, s.files[Lock(b)].pid, b);
      }
    }
  }

  lemma CallKeepsMarkersHeld(s: State, p: Pid, aged: bool)
    requires Inv(s) && Live(s, p)
    ensures MarkersHeld(Call(s, p, aged))
  {
    var s', me := Call(s, p, aged), s.procs[p];
    forall b | Marker(b) in s'.files && !NamesNobodyLive(s', Marker(b))
      ensures Holds(s', s'.files[Marker(b)].pid, b)
    {
      if me.pc == LinkMarker(b) && Marker(b) !in s.files {
        assert s'.procs[p].claims[|me.claims|] == b;
      } else {
        assert s'.files[Marker(b)] == s.files[Marker(b)] && !NamesNobodyLive(s, Marker(b));
        assert Holds(s, s.files[Marker(b)].pid, b);
      }
    }
  }

  lemma CallKeepsOwnProbes(s: State, p: Pid, aged: bool)
    requires Inv(s) && Live(s, p)
    ensures OwnProbes(Call(s, p, aged))
  {
    var s', pc := Call(s, p, aged), s.procs[p].pc;
    forall q, b | Holds(s', q, b) && s'.procs[q].pc.Probe? && s'.procs[q].pc.path == Marker(b)
      ensures s'.procs[q].pc.owner == q
    {
      assert Holds(s, q, b);
    }
  }

  /** A call that is not a hazard keeps the invariant, whichever process makes it; so does every other action. */
  lemma StepKeepsInv(s: State, a: Action)
    requires Inv(s) && Hazards(s, a) == []
    ensures Inv(Step(s, a))
  {
    if a.Act? && Live(s, a.p) {
      CallKeepsPids(s, a.p, a.aged);
      CallKeepsDistinct(s, a.p, a.aged);
      CallKeepsLocks(s, a.p, a.aged);
      CallKeepsRemovals(s, a.p, a.aged);
      CallKeepsClaims(s, a.p, a.aged);
      CallKeepsLocksHeld(s, a.p, a.aged);
      CallKeepsMarkersHeld(s, a.p, a.aged);
      CallKeepsOwnProbes(s, a.p, a.aged);
    } else {
      OtherKeepsPids(s, a);
      OtherKeepsClaims(s, a);
      OtherKeepsLocks(s, a);
      OtherKeepsRemovals(s, a);
      OtherKeepsHeld(s, a);
    }
  }

  lemma OtherKeepsHeld(s: State, a: Action)
    requires Inv(s) && !(a.Act? && Live(s, a.p))
    ensures LocksHeld(Step(s, a)) && MarkersHeld(Step(s, a)) && OwnProbes(Step(s, a))
  {
    var s' := Step(s, a);
    forall b | Lock(b) in s'.files && !NamesNobodyLive(s', Lock(b))
      ensures InLock(s'.procs[s'.files[Lock(b)].pid].pc, b)
    {
      assert !NamesNobodyLive(s, Lock(b));
    }
    forall b | Marker(b) in s'.files && !NamesNobodyLive(s', Marker(b))
      ensures Holds(s', s'.files[Marker(b)].pid, b)
    {
      assert !NamesNobodyLive(s, Marker(b));
      assert Holds(s, s.files[Marker(b)].pid, b);
    }
    forall q, b | Holds(s', q, b) && s'.procs[q].pc.Probe? && s'.procs[q].pc.path == Marker(b)
      ensures s'.procs[q].pc.owner == q
    {
      assert Holds(s, q, b);
    }
  }

  predicate AtStart(pc: Pc) {
    pc.Idle? || pc.LinkMarker? || pc.Releasing?
  }

  /** An action that is no call changes no file, and only puts a process at a start. */
  lemma OtherLeaves(s: State, a: Action, q: Pid)
    requires !(a.Act? && Live(s, a.p)) && Live(Step(s, a), q)
    ensures Step(s, a).files == s.files
    ensures !AtStart(Step(s, a).procs[q].pc) ==> Live(s, q) && Step(s, a).procs[q] == s.procs[q]
  {
  }

  lemma OtherKeepsPids(s: State, a: Action)
    requires PidsKnown(s) && !(a.Act? && Live(s, a.p))
    ensures PidsKnown(Step(s, a))
  {
  }

  lemma OtherKeepsClaims(s: State, a: Action)
    requires ClaimsMarked(s) && ClaimsDistinct(s) && !(a.Act? && Live(s, a.p))
    ensures ClaimsMarked(Step(s, a)) && ClaimsDistinct(Step(s, a))
  {
    var s' := Step(s, a);
    forall q, b | Holds(s', q, b)
      ensures Marker(b) in s'.files && s'.files[Marker(b)] == Names(q)
    {
      assert Holds(s, q, b);
    }
  }

  lemma OtherKeepsLocks(s: State, a: Action)
    requires LocksNameHolder(s) && !(a.Act? && Live(s, a.p))
    ensures LocksNameHolder(Step(s, a))
  {
    var s' := Step(s, a);
    forall q, b | Live(s', q) && InLock(s'.procs[q].pc, b)
      ensures Lock(b) in s'.files && s'.files[Lock(b)] == Names(q)
    {
      OtherLeaves(s, a, q);
    }
  }

  lemma OtherKeepsRemovals(s: State, a: Action)
    requires PidsKnown(s) && RemovalsSound(s) && !(a.Act? && Live(s, a.p))
    ensures RemovalsSound(Step(s, a))
  {
    var s' := Step(s, a);
    forall q, b | Live(s', q) && s'.procs[q].pc == RemoveMarker(b)
      ensures NamesNobodyLive(s', Marker(b))
    {
      OtherLeaves(s, a, q);
      assert NamesNobodyLive(s, Marker(b));
    }
  }

  /** A wrong verdict makes a removal unsound at once; a stolen lock leaves its holder's section open. */
  lemma HazardBreaksInv(s: State, a: Action)
    requires Inv(s) && Hazards(s, a) != []
    ensures !Inv(Step(s, a))
    ensures !s.procs[a.p].pc.RemoveLock? ==> !Exclusive(Step(s, a))
  {
    var s', pc := Step(s, a), s.procs[a.p].pc;
    if pc.RemoveLock? {
      var victim := s.files[Lock(pc.base)].pid;
      assert InLock(s.procs[victim].pc, pc.base);
      assert Live(s', victim) && InLock(s'.procs[victim].pc, pc.base) && Lock(pc.base) !in s'.files;
    } else {
      var b := pc.path.base;
      assert s'.procs[a.p].pc == RemoveMarker(b) && !NamesNobodyLive(s', Marker(b));
    }
  }

  /** The invariant is kept by exactly the steps that meet no hazard. */
  lemma StepKeepsInvExactly(s: State, a: Action)
    requires Inv(s)
    ensures Inv(Step(s, a)) <==> Hazards(s, a) == []
  {
    if Hazards(s, a) == [] {
      StepKeepsInv(s, a);
    } else {
      HazardBreaksInv(s, a);
    }
  }

  /** Over any interleaving of any number of processes that meets no hazard, exclusion holds at every point. */
  lemma {:induction false} ExclusionWithoutHazards(s: State, actions: seq<Action>)
    requires Inv(s) && HazardsOf(s, actions) == []
    ensures Inv(Run(s, actions)) && Exclusive(Run(s, actions))
    decreases |actions|
  {
    if actions == [] {
      InvMeansExclusive(s);
    } else {
      StepKeepsInv(s, actions[0]);
      ExclusionWithoutHazards(Step(s, actions[0]), actions[1..]);
    }
  }

  // ---------------------------------------------------------------- a condition on the environment

  /**
   * A process is inspecting a file from the moment it found the name taken: a marker until the
   * verdict about it, a lock until it has been removed or left alone.
   */
  predicate Inspects(pc: Pc, path: Path) {
    match path
    case Lock(b) => InspectsLock(pc, b)
    case Marker(b) =>
      || pc == LinkLock(b) || InspectsLock(pc, b) || pc == RelinkLock(b)
      || pc == Read(path) || (pc.Probe? && pc.path == path) || pc == Stat(path)
  }

  predicate InspectsLock(pc: Pc, b: int) {
    pc == Read(Lock(b)) || (pc.Probe? && pc.path == Lock(b)) || pc == Stat(Lock(b)) || pc == RemoveLock(b)
  }

  /** The step removes an existing file. */
  predicate Removes(s: State, a: Action, path: Path) {
    && a.Act? && Live(s, a.p) && path in s.files
    && var me := s.procs[a.p];
       match me.pc
       case RemoveLock(b) => path == Lock(b)
       case DropLock(b) => path == Lock(b)
       case RemoveMarker(b) => path == Marker(b)
       case Releasing => me.claims != [] && path == Marker(me.claims[0])
       case _ => false
  }

  /** No file is removed while another live process is inspecting it, and the age backstop does not fire. */
  ghost predicate Quiet(s: State, a: Action) {
    && (forall path, q :: Removes(s, a, path) && Live(s, q) && q != a.p ==> !Inspects(s.procs[q].pc, path))
    && (a.Act? && Live(s, a.p) && s.procs[a.p].pc.Stat? ==> !a.aged)
  }

  ghost predicate QuietRun(s: State, actions: seq<Action>)
    decreases |actions|
  {
    actions == [] || (Quiet(s, actions[0]) && QuietRun(Step(s, actions[0]), actions[1..]))
  }

  /** What an inspecting process found is still so. */
  ghost predicate EvidenceCurrent(s: State) {
    InspectedThere(s) && ProbesCurrent(s) && LockVerdictsSound(s)
  }

  ghost predicate InspectedThere(s: State) {
    forall p, path :: Live(s, p) && Inspects(s.procs[p].pc, path) ==> path in s.files
  }

  ghost predicate ProbesCurrent(s: State) {
    forall p :: Live(s, p) && s.procs[p].pc.Probe? ==>
      s.procs[p].pc.path in s.files && s.files[s.procs[p].pc.path] == Names(s.procs[p].pc.owner)
  }

  ghost predicate LockVerdictsSound(s: State) {
    forall p :: Live(s, p) && s.procs[p].pc.RemoveLock? ==> NamesNobodyLive(s, Lock(s.procs[p].pc.base))
  }

  /** In a quiet step nothing that is being inspected goes away or changes. */
  lemma QuietFrame(s: State, a: Action, q: Pid, path: Path)
    requires Quiet(s, a) && EvidenceCurrent(s)
    requires Live(s, q) && Inspects(s.procs[q].pc, path) && !(a.Act? && a.p == q)
    ensures path in Step(s, a).files && Step(s, a).files[path] == s.files[path]
  {
    assert !Removes(s, a, path) by {
      if a.Act? {
        assert q != a.p;
      }
    }
  }

  /** A process that goes on inspecting, or starts to, does so on a file that is there. */
  lemma OwnInspection(s: State, p: Pid, aged: bool, path: Path)
    requires EvidenceCurrent(s) && Live(s, p) && Inspects(Call(s, p, aged).procs[p].pc, path)
    ensures path in Call(s, p, aged).files
  {
    match path
    case Lock(b) => OwnLockInspection(s, p, aged, b);
    case Marker(b) => OwnMarkerInspection(s, p, aged, b);
  }

  lemma OwnLockInspection(s: State, p: Pid, aged: bool, b: int)
    requires InspectedThere(s) && Live(s, p) && Inspects(Call(s, p, aged).procs[p].pc, Lock(b))
    ensures Lock(b) in Call(s, p, aged).files
  {
    var pc := s.procs[p].pc;
    assert pc == LinkLock(b) || Inspects(pc, Lock(b));
  }

  lemma OwnMarkerInspection(s: State, p: Pid, aged: bool, b: int)
    requires InspectedThere(s) && Live(s, p) && Inspects(Call(s, p, aged).procs[p].pc, Marker(b))
    ensures Marker(b) in Call(s, p, aged).files
  {
    var pc := s.procs[p].pc;
    assert pc == LinkMarker(b) || Inspects(pc, Marker(b));
  }

  lemma QuietKeepsInspected(s: State, a: Action)
    requires EvidenceCurrent(s) && Quiet(s, a)
    ensures InspectedThere(Step(s, a))
  {
    var s' := Step(s, a);
    forall q, path | Live(s', q) && Inspects(s'.procs[q].pc, path)
      ensures path in s'.files
    {
      if a.Act? && a.p == q {
        OwnInspection(s, q, a.aged, path);
      } else {
        assert Live(s, q) && Inspects(s.procs[q].pc, path);
        QuietFrame(s, a, q, path);
      }
    }
  }

  lemma QuietKeepsProbes(s: State, a: Action)
    requires EvidenceCurrent(s) && Quiet(s, a)
    ensures ProbesCurrent(Step(s, a))
  {
    var s' := Step(s, a);
    forall q | Live(s', q) && s'.procs[q].pc.Probe?
      ensures s'.procs[q].pc.path in s'.files && s'.files[s'.procs[q].pc.path] == Names(s'.procs[q].pc.owner)
    {
      if !(a.Act? && a.p == q) {
        assert Live(s, q) && Inspects(s.procs[q].pc, s.procs[q].pc.path);
        QuietFrame(s, a, q, s.procs[q].pc.path);
      }
    }
  }

  /** A process comes to remove a lock only on evidence that it names nobody live. */
  lemma OwnVerdict(s: State, p: Pid, aged: bool)
    requires PidsKnown(s) && InspectedThere(s) && ProbesCurrent(s) && Live(s, p)
    requires s.procs[p].pc.Stat? ==> !aged
    ensures var s' := Call(s, p, aged);
      s'.procs[p].pc.RemoveLock? ==> NamesNobodyLive(s', Lock(s'.procs[p].pc.base))
  {
    var pc, s' := s.procs[p].pc, Call(s, p, aged);
    if s'.procs[p].pc.RemoveLock? {
      assert Inspects(pc, Lock(s'.procs[p].pc.base));
    }
  }

  lemma OthersVerdict(s: State, a: Action, q: Pid, b: int)
    requires PidsKnown(s) && EvidenceCurrent(s) && Quiet(s, a)
    requires Live(s, q) && s.procs[q].pc == RemoveLock(b) && !(a.Act? && a.p == q)
    ensures NamesNobodyLive(Step(s, a), Lock(b))
  {
    assert Inspects(s.procs[q].pc, Lock(b));
    assert NamesNobodyLive(s, Lock(b));
    QuietFrame(s, a, q, Lock(b));
  }

  lemma QuietKeepsVerdicts(s: State, a: Action)
    requires PidsKnown(s) && EvidenceCurrent(s) && Quiet(s, a)
    ensures LockVerdictsSound(Step(s, a))
  {
    var s' := Step(s, a);
    forall q | Live(s', q) && s'.procs[q].pc.RemoveLock?
      ensures NamesNobodyLive(s', Lock(s'.procs[q].pc.base))
    {
      if a.Act? && a.p == q {
        OwnVerdict(s, q, a.aged);
      } else {
        OthersVerdict(s, a, q, s'.procs[q].pc.base);
      }
    }
  }

  lemma QuietKeepsEvidence(s: State, a: Action)
    requires Inv(s) && EvidenceCurrent(s) && Quiet(s, a)
    ensures EvidenceCurrent(Step(s, a)) && Hazards(s, a) == []
  {
    QuietKeepsInspected(s, a);
    QuietKeepsProbes(s, a);
    QuietKeepsVerdicts(s, a);
    QuietHasNoHazard(s, a);
  }

  lemma QuietHasNoHazard(s: State, a: Action)
    requires EvidenceCurrent(s) && Quiet(s, a)
    ensures Hazards(s, a) == []
  {
    if a.Act? && Live(s, a.p) {
      var pc := s.procs[a.p].pc;
      assert pc.Read? || pc.Probe? || pc.Stat? ==> Inspects(pc, pc.path);
    }
  }

  /**
   * The condition on the environment: if no file is removed while another process is inspecting it
   * and the backstop does not fire, exclusion holds at every point of every interleaving, with
   * deaths anywhere and whatever files earlier processes left.
   */
  lemma {:induction false} QuietRunsExclude(s: State, actions: seq<Action>)
    requires Inv(s) && EvidenceCurrent(s) && QuietRun(s, actions)
    ensures HazardsOf(s, actions) == [] && Exclusive(Run(s, actions))
    decreases |actions|
  {
    if actions == [] {
      InvMeansExclusive(s);
    } else {
      QuietKeepsEvidence(s, actions[0]);
      StepKeepsInv(s, actions[0]);
      QuietRunsExclude(Step(s, actions[0]), actions[1..]);
    }
  }

  /** Both conditions, from a machine on which nothing runs yet. */
  lemma {:induction false} ExclusionFromStart(s: State, actions: seq<Action>)
    requires Initial(s)
    requires HazardsOf(s, actions) == [] || QuietRun(s, actions)
    ensures Exclusive(Run(s, actions))
  {
    InitialInv(s);
    if HazardsOf(s, actions) == [] {
      ExclusionWithoutHazards(s, actions);
    } else {
      QuietRunsExclude(s, actions);
    }
  }
}

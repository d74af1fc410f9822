/**
 * The allocator and the machine agree: a process that runs alone through a claim leaves the machine
 * in the state the allocator's contract names.
 */
module PortSolo {
  import opened PortBase
  import opened PortSweep

  predicate By(p: Pid, a: Action) {
    (a.BeginClaim? || a.Act?) && a.p == p
  }

  /** Some actions of `p` alone lead from `s` to `t`. */
  ghost predicate Alone(s: State, p: Pid, t: State) {
    exists actions :: (forall a :: a in actions ==> By(p, a)) && Run(s, actions) == t
  }

  lemma {:induction false} RunSnoc(s: State, actions: seq<Action>, a: Action)
    ensures Run(s, actions + [a]) == Step(Run(s, actions), a)
    decreases |actions|
  {
    if actions == [] {
      assert ([] + [a])[1..] == [];
    } else {
      assert (actions + [a])[0] == actions[0] && (actions + [a])[1..] == actions[1..] + [a];
      RunSnoc(Step(s, actions[0]), actions[1..], a);
    }
  }

  lemma Next(s: State, p: Pid, t: State, a: Action)
    requires Alone(s, p, t) && By(p, a)
    ensures Alone(s, p, Step(t, a))
  {
    var actions :| (forall x :: x in actions ==> By(p, x)) && Run(s, actions) == t;
    RunSnoc(s, actions, a);
    assert forall x :: x in actions + [a] ==> By(p, x);
  }

  /** One call of `p` that may change the files and moves `p` on. */
  lemma Shift(s: State, p: Pid, t: State, from: Pc, aged: bool, files: map<Path, File>, to: Pc)
    requires Live(t, p) && Alone(s, p, Goto(t, p, from))
    requires Call(Goto(t, p, from), p, aged) == Goto(Goto(t, p, from).(files := files), p, to)
    ensures Alone(s, p, Goto(t.(files := files), p, to))
  {
    Next(s, p, Goto(t, p, from), Act(p, aged));
    assert Goto(t, p, from).procs[p := t.procs[p].(pc := to)] == t.procs[p := t.procs[p].(pc := to)];
  }

  /** What the probes answer in this state, given what the age check would say. */
  ghost predicate Describes(env: Surroundings, s: State) {
    forall q :: q in env.live <==> Live(s, q)
  }

  /** An inspection of a file ends in the verdict the allocator computes. */
  lemma Inspection(s: State, p: Pid, t: State, path: Path, env: Surroundings)
    requires Live(t, p) && Describes(env, t) && path in t.files
    requires Alone(s, p, Goto(t, p, Read(path)))
    ensures Alone(s, p, Goto(t, p, Verdict(path, Abandoned(t.files, env, path))))
  {
    if t.files[path].Unreadable? {
      Shift(s, p, t, Read(path), false, t.files, Verdict(path, true));
    } else {
      var owner := t.files[path].pid;
      Shift(s, p, t, Read(path), false, t.files, Probe(path, owner));
      if owner !in env.live {
        Shift(s, p, t, Probe(path, owner), false, t.files, Verdict(path, true));
      } else {
        Shift(s, p, t, Probe(path, owner), false, t.files, Stat(path));
        Shift(s, p, t, Stat(path), path in env.aged, t.files, Verdict(path, path in env.aged));
      }
    }
  }

  /** From inside the lock: inspect the marker, remove it if it is abandoned, drop the lock. */
  lemma InsideLock(s: State, p: Pid, t: State, b: int, env: Surroundings)
    requires Live(t, p) && Describes(env, t) && Marker(b) in t.files
    requires Alone(s, p, Goto(t, p, Read(Marker(b))))
    ensures Alone(s, p, Goto(t.(files := if Abandoned(t.files, env, Marker(b))
                                         then Without(Without(t.files, Marker(b)), Lock(b))
                                         else Without(t.files, Lock(b))), p, Idle))
  {
    Inspection(s, p, t, Marker(b), env);
    if Abandoned(t.files, env, Marker(b)) {
      var files := Without(t.files, Marker(b));
      Shift(s, p, t, RemoveMarker(b), false, files, DropLock(b));
      Shift(s, p, t.(files := files), DropLock(b), false, Without(files, Lock(b)), Idle);
    } else {
      Shift(s, p, t, DropLock(b), false, Without(t.files, Lock(b)), Idle);
    }
  }

  /** A claim of a process running alone does what `ClaimPortBase` promises. */
  lemma SoloClaim(s: State, p: Pid, b: int, env: Surroundings)
    requires Live(s, p) && s.procs[p].pc == Idle && Describes(env, s)
    ensures Marker(b) !in s.files ==>
              Alone(s, p, State(s.files[Marker(b) := Names(p)],
                                s.procs[p := Process(true, Idle, s.procs[p].claims + [b])]))
    ensures Marker(b) in s.files ==> Alone(s, p, s.(files := AfterFailedClaim(s.files, env, b)))
  {
    assert Run(s, []) == s;
    assert Alone(s, p, s);
    Next(s, p, s, BeginClaim(p, b));
    var t1 := Goto(s, p, LinkMarker(b));
    Next(s, p, t1, Act(p, false));
    if Marker(b) !in s.files {
      assert t1.procs[p := Process(true, Idle, s.procs[p].claims + [b])]
          == s.procs[p := Process(true, Idle, s.procs[p].claims + [b])];
    } else {
      assert Goto(t1, p, LinkLock(b)) == Goto(s, p, LinkLock(b));
      SoloReclaim(s, s, p, b, env);
    }
  }

  lemma SoloReclaim(s: State, t: State, p: Pid, b: int, env: Surroundings)
    requires Live(t, p) && t.procs[p].pc == Idle && Describes(env, t) && Marker(b) in t.files
    requires Alone(s, p, Goto(t, p, LinkLock(b)))
    ensures Alone(s, p, t.(files := AfterFailedClaim(t.files, env, b)))
  {
    var held := t.files[Lock(b) := Names(p)];
    if Lock(b) !in t.files {
      Shift(s, p, t, LinkLock(b), false, held, Read(Marker(b)));
      LockHeld(s, t, p, b, env);
    } else {
      Shift(s, p, t, LinkLock(b), false, t.files, Read(Lock(b)));
      Inspection(s, p, t, Lock(b), env);
      if Abandoned(t.files, env, Lock(b)) {
        ReplacesLock(s, t, p, b);
        LockHeld(s, t, p, b, env);
      } else {
        assert Goto(t, p, Idle) == t;
      }
    }
  }

  lemma ReplacesLock(s: State, t: State, p: Pid, b: int)
    requires Live(t, p) && Alone(s, p, Goto(t, p, RemoveLock(b)))
    ensures Alone(s, p, Goto(t.(files := t.files[Lock(b) := Names(p)]), p, Read(Marker(b))))
  {
    var files := Without(t.files, Lock(b));
    Shift(s, p, t, RemoveLock(b), false, files, RelinkLock(b));
    Shift(s, p, t.(files := files), RelinkLock(b), false, files[Lock(b) := Names(p)], Read(Marker(b)));
    assert files[Lock(b) := Names(p)] == t.files[Lock(b) := Names(p)];
  }

  lemma PutThenWithout(files: map<Path, File>, path: Path, other: Path, file: File)
    ensures Without(files[path := file], path) == Without(files, path)
    ensures Without(Without(files[path := file], other), path) == Without(Without(files, other), path)
  {
  }

  lemma LockHeld(s: State, t: State, p: Pid, b: int, env: Surroundings)
    requires Live(t, p) && t.procs[p].pc == Idle && Describes(env, t) && Marker(b) in t.files
    requires Abandoned(t.files, env, Lock(b))
    requires Alone(s, p, Goto(t.(files := t.files[Lock(b) := Names(p)]), p, Read(Marker(b))))
    ensures Alone(s, p, t.(files := AfterFailedClaim(t.files, env, b)))
  {
    var held := t.(files := t.files[Lock(b) := Names(p)]);
    InsideLock(s, p, held, b, env);
    assert Goto(t, p, Idle) == t;
    PutThenWithout(t.files, Lock(b), Marker(b), Names(p));
    assert Goto(held.(files := AfterFailedClaim(t.files, env, b)), p, Idle) == t.(files := AfterFailedClaim(t.files, env, b));
  }
}

/**
 * Port-base claims as a state machine over any number of processes, interleaved at every call that
 * reads or changes a marker, a reclaim lock or a process.
 *
 * A claim is a marker file naming its owner, taken with a hard link. A marker whose owner is gone is
 * removed under a reclaim lock, which is itself a marker and is recovered the same way. Staging
 * files carry a random name and are seen by their own process only, so publishing is the one step
 * of the link.
 */
module PortBase {

  type Pid = nat

  datatype File = Names(pid: Pid) | Unreadable

  datatype Path = Marker(base: int) | Lock(base: int)

  /** Where a process is in the code; every step except `Idle` is about to make one call. */
  datatype Pc =
    | Idle
    | LinkMarker(base: int)                  // claimPortBase: publish(marker)
    | LinkLock(base: int)                    // takeReclaimLock: publish(lock)
    | Read(path: Path)                       // isAbandoned: readFileSync
    | Probe(path: Path, owner: Pid)          // isAbandoned: kill(owner, 0)
    | Stat(path: Path)                       // isAbandoned: lstatSync
    | RemoveLock(base: int)                  // takeReclaimLock: rmSync(lock)
    | RelinkLock(base: int)                  // takeReclaimLock: publish(lock), again
    | RemoveMarker(base: int)                // reclaimIfOwnerGone: rmSync(marker)
    | DropLock(base: int)                    // reclaimIfOwnerGone: finally rmSync(lock)
    | Releasing                              // releasePortBases

  /** A process and the bases it holds, in the order it claimed them. */
  datatype Process = Process(alive: bool, pc: Pc, claims: seq<int>)

  datatype State = State(files: map<Path, File>, procs: map<Pid, Process>)

  datatype Action =
    | Spawn(p: Pid)
    | Die(p: Pid)
    | BeginClaim(p: Pid, base: int)
    | BeginRelease(p: Pid)
    | Act(p: Pid, aged: bool)   // the next call of p; `aged` is what the age backstop would answer

  predicate Live(s: State, p: Pid) {
    p in s.procs && s.procs[p].alive
  }

  function Goto(s: State, p: Pid, pc: Pc): State
    requires p in s.procs
  {
    s.(procs := s.procs[p := s.procs[p].(pc := pc)])
  }

  function Without(files: map<Path, File>, path: Path): map<Path, File> {
    map other | other in files && other != path :: files[other]
  }

  function Removed(s: State, path: Path): State {
    s.(files := Without(s.files, path))
  }

  /** What follows an inspection: `takeReclaimLock` for a lock, `reclaimIfOwnerGone` for a marker. */
  function Verdict(path: Path, abandoned: bool): Pc {
    match path
    case Lock(b) => if abandoned then RemoveLock(b) else Idle
    case Marker(b) => if abandoned then RemoveMarker(b) else DropLock(b)
  }

  /** The next call of a live process. */
  function Call(s: State, p: Pid, aged: bool): State
    requires Live(s, p)
  {
    var me := s.procs[p];
    match me.pc
    case Idle => s
    case LinkMarker(b) =>
      if Marker(b) in s.files then Goto(s, p, LinkLock(b))
      else State(s.files[Marker(b) := Names(p)], s.procs[p := Process(true, Idle, me.claims + [b])])
    case LinkLock(b) =>
      if Lock(b) in s.files then Goto(s, p, Read(Lock(b)))
      else Goto(s.(files := s.files[Lock(b) := Names(p)]), p, Read(Marker(b)))
    case Read(path) =>
      if path !in s.files || s.files[path].Unreadable? then Goto(s, p, Verdict(path, true))
      else Goto(s, p, Probe(path, s.files[path].pid))
    case Probe(path, owner) =>
      if Live(s, owner) then Goto(s, p, Stat(path)) else Goto(s, p, Verdict(path, true))
    case Stat(path) => Goto(s, p, Verdict(path, path !in s.files || aged))
    case RemoveLock(b) => Goto(Removed(s, Lock(b)), p, RelinkLock(b))
    case RelinkLock(b) =>
      if Lock(b) in s.files then Goto(s, p, Idle)
      else Goto(s.(files := s.files[Lock(b) := Names(p)]), p, Read(Marker(b)))
    case RemoveMarker(b) => Goto(Removed(s, Marker(b)), p, DropLock(b))
    case DropLock(b) => Goto(Removed(s, Lock(b)), p, Idle)
    case Releasing =>
      if me.claims == [] then Goto(s, p, Idle)
      else
        var s' := Removed(s, Marker(me.claims[0]));
        s'.(procs := s'.procs[p := me.(claims := me.claims[1..])])
  }

  /** One step of the machine. An action that is not enabled changes nothing; pids are never reused. */
  function Step(s: State, a: Action): State {
    match a
    case Spawn(p) => if p in s.procs then s else s.(procs := s.procs[p := Process(true, Idle, [])])
    case Die(p) => if Live(s, p) then s.(procs := s.procs[p := s.procs[p].(alive := false)]) else s
    case BeginClaim(p, b) => if Live(s, p) && s.procs[p].pc == Idle then Goto(s, p, LinkMarker(b)) else s
    case BeginRelease(p) => if Live(s, p) && s.procs[p].pc == Idle then Goto(s, p, Releasing) else s
    case Act(p, aged) => if Live(s, p) then Call(s, p, aged) else s
  }

  function Run(s: State, actions: seq<Action>): State
    decreases |actions|
  {
    if actions == [] then s else Run(Step(s, actions[0]), actions[1..])
  }

  /** Nothing runs yet: only files, naming processes that are gone or nobody that can be read. */
  ghost predicate Initial(s: State) {
    && (forall p :: p in s.procs ==> !s.procs[p].alive && s.procs[p].pc == Idle && s.procs[p].claims == [])
    && (forall path :: path in s.files && s.files[path].Names? ==> s.files[path].pid in s.procs)
  }

  ghost predicate Holds(s: State, p: Pid, b: int) {
    Live(s, p) && b in s.procs[p].claims
  }

  // ---------------------------------------------------------------- hazards

  /** The file is there and names no process that is live. */
  predicate NamesNobodyLive(s: State, path: Path) {
    path in s.files && (s.files[path].Unreadable? || !Live(s, s.files[path].pid))
  }

  /**
   * The ways a step can act on a wrong verdict. The first four judge a marker abandoned that is
   * missing or names a live process: its file had vanished before it was read or before its age was
   * asked, its former owner was found dead, or it had aged under a live owner. The last removes a
   * reclaim lock that names a live process.
   */
  datatype Hazard = VanishedBeforeRead | StaleProbe | VanishedBeforeStat | Backstop | LockTheft

  function Hazards(s: State, a: Action): seq<Hazard> {
    if !a.Act? || !Live(s, a.p) then []
    else
      match s.procs[a.p].pc
      case Read(Marker(b)) => if Marker(b) !in s.files then [VanishedBeforeRead] else []
      case Probe(Marker(b), owner) =>
        if !Live(s, owner) && !NamesNobodyLive(s, Marker(b)) then [StaleProbe] else []
      case Stat(Marker(b)) =>
        if Marker(b) !in s.files then [VanishedBeforeStat]
        else if a.aged && !NamesNobodyLive(s, Marker(b)) then [Backstop]
        else []
      case RemoveLock(b) => if Lock(b) in s.files && !NamesNobodyLive(s, Lock(b)) then [LockTheft] else []
      case _ => []
  }

  /** The hazards of a whole run, in order. */
  function HazardsOf(s: State, actions: seq<Action>): seq<Hazard>
    decreases |actions|
  {
    if actions == [] then [] else Hazards(s, actions[0]) + HazardsOf(Step(s, actions[0]), actions[1..])
  }
}

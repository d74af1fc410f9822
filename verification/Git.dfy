/**
 * The repository a workspace holds, the remote it was cloned from, and what each git command that
 * preparation issues does to them.
 *
 * Every command may fail, with or without having taken effect, and every network command meets
 * whatever the remote holds at that moment: others push to it, rewrite it and prune it.
 */
module Git {
  import opened Common

  type Commit = string
  type Name = string

  /** Commits and their parents; a commit's parents never change, since its name is a hash of them. */
  type History = map<Commit, set<Commit>>

  datatype Head = OnBranch(name: Name) | Detached(commit: Commit)

  /** Local branches, remote-tracking refs, names that resolve to a commit in another way, and HEAD. */
  datatype Repo = Repo(history: History, local: map<Name, Commit>, tracking: map<Name, Commit>,
                       revs: map<Name, Commit>, head: Head)

  datatype Workspace = Bare | Cloned(repo: Repo)

  datatype Remote = Remote(history: History, heads: map<Name, Commit>, tags: map<Name, Commit>)

  /** How one command ends, and the remote it met. */
  datatype Fate = Succeeds | FailsWithoutEffect | FailsAfterEffect

  datatype Moment = Moment(fate: Fate, remote: Remote)

  datatype Failure = Refused | NoRepository | GitFailed | WriteFailed

  /** What preparation publishes about itself; the wording of the messages is left out. */
  datatype Summary = OnBase(name: Name) | Created(name: Name, from: Name) | CheckedOut(name: Name) | Resumed(name: Name)

  /** How far a local branch and its remote counterpart have moved apart, as the user is told. */
  datatype Note =
    | Diverged(ahead: nat, behind: nat)
    | BehindOnly(behind: nat)
    | AheadOnly(ahead: nat)
    | HeadMoved(expected: Commit, found: Commit)

  datatype PrepareEvent =
    | Refreshing
    | Cloning(name: Name)
    | Landed(summary: Summary, sha: Commit)
    | Finding(note: Note)
    | PrepareDone(headSha: Commit, branch: Name)

  /** The workspace, the last known remote, the moments of the commands to come, and the events emitted. */
  datatype World = World(ws: Workspace, remote: Remote, script: seq<Moment>, events: seq<PrepareEvent>) {
    function Fate(): Fate {
      if script == [] then Succeeds else script[0].fate
    }

    /** The world as the next command finds it. */
    function Met(): World {
      if script == [] then this else World(ws, script[0].remote, script[1..], events)
    }
  }

  datatype Try<+T> = Ok(world: World, value: T) | Failed(world: World, failure: Failure) {
    predicate IsFailure() {
      Failed?
    }

    function PropagateFailure<U>(): Try<U>
      requires Failed?
    {
      Failed(world, failure)
    }

    function Extract(): (World, T)
      requires Ok?
    {
      (world, value)
    }
  }

  /** What a command would do: its effect on the workspace, or that git refuses it. */
  function Effect<T>(w: World, change: Option<(Workspace, T)>): Try<T> {
    var met := w.Met();
    match change
    case None => Failed(met, GitFailed)
    case Some((ws, value)) =>
      match w.Fate()
      case Succeeds => Ok(met.(ws := ws), value)
      case FailsWithoutEffect => Failed(met, GitFailed)
      case FailsAfterEffect => Failed(met.(ws := ws), GitFailed)
  }

  function HeadCommit(r: Repo): Option<Commit> {
    match r.head
    case Detached(c) => Some(c)
    case OnBranch(n) => if n in r.local then Some(r.local[n]) else None
  }

  /** What a fetch brings: the remote's commits and tags, without replacing what is there. */
  function Fetched(r: Repo, remote: Remote): Repo {
    r.(history := remote.history + r.history, revs := remote.tags + r.revs)
  }

  // ---------------------------------------------------------------- commands

  /** git rev-parse --is-inside-work-tree, asked for its exit code. */
  function IsWorkTree(w: World): (World, bool) {
    (w.Met(), w.Fate() == Succeeds && w.ws.Cloned?)
  }

  /** git rev-parse --verify --quiet refs/heads/<name>, asked for its exit code. */
  function HasLocalBranch(w: World, name: Name): (World, bool) {
    (w.Met(), w.Fate() == Succeeds && w.ws.Cloned? && name in w.ws.repo.local)
  }

  const HEADS := "refs/heads/"
  const TAGS := "refs/tags/"

  /** What a full ref of the remote names. */
  function RefAt(remote: Remote, full: string): Option<Commit> {
    if StartsWith(full, HEADS) && full[|HEADS|..] in remote.heads then Some(remote.heads[full[|HEADS|..]])
    else if StartsWith(full, TAGS) && full[|TAGS|..] in remote.tags then Some(remote.tags[full[|TAGS|..]])
    else None
  }

  /** What a short name stands for at the remote: the path itself, the path below `refs`, a tag, and only then a branch. */
  function Resolved(remote: Remote, name: Name): Option<Commit> {
    if RefAt(remote, name).Some? then RefAt(remote, name)
    else if RefAt(remote, "refs/" + name).Some? then RefAt(remote, "refs/" + name)
    else if name in remote.tags then Some(remote.tags[name])
    else if name in remote.heads then Some(remote.heads[name])
    else None
  }

  /** ls-remote matches a ref whose last path components are the pattern. */
  predicate TailMatches(ref: Name, name: Name) {
    ref == name || (|ref| > |name| && ref[|ref| - |name| - 1..] == "/" + name)
  }

  predicate Answers(remote: Remote, name: Name) {
    exists branch :: branch in remote.heads && TailMatches(HEADS + branch, name)
  }

  /** git ls-remote --heads origin <name>, asked whether it printed anything. */
  function HasRemoteBranch(w: World, name: Name): (World, bool) {
    (w.Met(), w.Fate() != FailsWithoutEffect && Answers(w.Met().remote, name))
  }

  /** git clone --branch <name> into the workspace; a tag of that name is checked out detached. */
  function Clone(w: World, name: Name): Try<()> {
    var remote := w.Met().remote;
    Effect(w,
      if w.ws.Cloned? then None
      else if name in remote.heads then
        Some((Cloned(Repo(remote.history, map[name := remote.heads[name]], remote.heads, remote.tags, OnBranch(name))), ()))
      else if name in remote.tags then
        Some((Cloned(Repo(remote.history, map[], remote.heads, remote.tags, Detached(remote.tags[name]))), ()))
      else None)
  }

  /** git fetch origin --prune */
  function FetchPrune(w: World): Try<()> {
    var remote := w.Met().remote;
    Effect(w, if w.ws.Bare? then None else Some((Cloned(Fetched(w.ws.repo, remote).(tracking := remote.heads)), ())))
  }

  /** git fetch origin +<name>:refs/remotes/origin/<name> */
  function FetchBranch(w: World, name: Name): Try<()> {
    var remote := w.Met().remote;
    Effect(w,
      if w.ws.Bare? || Resolved(remote, name).None? then None
      else
        var r := Fetched(w.ws.repo, remote);
        Some((Cloned(r.(tracking := r.tracking[name := Resolved(remote, name).value])), ())))
  }

  /** An awaited write of one event, which may be rejected. */
  function Emit(w: World, e: PrepareEvent): Try<()> {
    var met := w.Met().(events := w.events + [e]);
    if w.Fate() == Succeeds then Ok(met, ()) else Failed(met, WriteFailed)
  }

  /**
   * git checkout <name>: a local branch is switched to, any other name of a commit is checked out
   * detached, and a name known only as a remote-tracking branch becomes a new local branch.
   */
  function Checkout(w: World, name: Name): Try<()> {
    Effect(w,
      if w.ws.Bare? then None
      else
        var r := w.ws.repo;
        if name in r.local then Some((Cloned(r.(head := OnBranch(name))), ()))
        else if name in r.revs then Some((Cloned(r.(head := Detached(r.revs[name]))), ()))
        else if name in r.tracking then
          Some((Cloned(r.(local := r.local[name := r.tracking[name]], head := OnBranch(name))), ()))
        else None)
  }

  /** git checkout -b <name>: refused when the branch exists; from an unborn HEAD no ref is written yet. */
  function CheckoutNew(w: World, name: Name): Try<()> {
    Effect(w,
      if w.ws.Bare? || name in w.ws.repo.local then None
      else
        var r := w.ws.repo;
        match HeadCommit(r)
        case Some(c) => Some((Cloned(r.(local := r.local[name := c], head := OnBranch(name))), ()))
        case None => Some((Cloned(r.(head := OnBranch(name))), ())))
  }

  /** git checkout -B <name> origin/<name>: creates the branch, or resets it. */
  function CheckoutReset(w: World, name: Name): Try<()> {
    Effect(w,
      if w.ws.Bare? || name !in w.ws.repo.tracking then None
      else
        var r := w.ws.repo;
        Some((Cloned(r.(local := r.local[name := r.tracking[name]], head := OnBranch(name))), ())))
  }

  /** git rev-parse HEAD */
  function RevParseHead(w: World): Try<Commit> {
    Effect(w,
      if w.ws.Bare? then None
      else
        match HeadCommit(w.ws.repo)
        case None => None
        case Some(c) => Some((w.ws, c)))
  }

  /** git rev-parse --abbrev-ref HEAD */
  function AbbrevRef(w: World): Try<Name> {
    Effect(w,
      if w.ws.Bare? || HeadCommit(w.ws.repo).None? then None
      else Some((w.ws, if w.ws.repo.head.OnBranch? then w.ws.repo.head.name else "HEAD")))
  }

  // ---------------------------------------------------------------- history

  /** A walk along parent links. */
  ghost predicate IsWalk(h: History, walk: seq<Commit>) {
    && walk != []
    && (forall i :: 0 <= i < |walk| ==> walk[i] in h)
    && (forall i :: 0 <= i < |walk| - 1 ==> walk[i + 1] in h[walk[i]])
  }

  ghost predicate WalkBetween(h: History, from: Commit, to: Commit, walk: seq<Commit>) {
    IsWalk(h, walk) && walk[0] == from && walk[|walk| - 1] == to
  }

  /** `to` is `from` or one of its ancestors. */
  ghost predicate Reaches(h: History, from: Commit, to: Commit) {
    exists walk :: WalkBetween(h, from, to, walk)
  }

  ghost predicate Acyclic(h: History) {
    forall c, walk :: WalkBetween(h, c, c, walk) ==> |walk| == 1
  }

  /** A commit and everything it is built on. */
  ghost function Ancestors(h: History, c: Commit): set<Commit> {
    set a | a in h && Reaches(h, c, a)
  }

  /** git rev-list --count <other>..<tip> */
  ghost function RevListCount(h: History, other: Commit, tip: Commit): nat {
    |Ancestors(h, tip) - Ancestors(h, other)|
  }

  ghost function RevList(w: World, other: Commit, tip: Commit): Try<nat> {
    Effect(w, if w.ws.Bare? then None else Some((w.ws, RevListCount(w.ws.repo.history, other, tip))))
  }

  /** A set that holds a walk's first commit and is closed under parents holds the whole walk. */
  lemma {:induction false} ClosedHoldsWalk(h: History, s: set<Commit>, walk: seq<Commit>)
    requires IsWalk(h, walk) && walk[0] in s
    requires forall c, p :: c in s && c in h && p in h[c] && p in h ==> p in s
    ensures walk[|walk| - 1] in s
    decreases |walk|
  {
    if |walk| > 1 {
      assert walk[1] in h[walk[0]];
      ClosedHoldsWalk(h, s, walk[1..]);
    }
  }

  lemma StepReaches(h: History, from: Commit, c: Commit, p: Commit)
    requires Reaches(h, from, c) && c in h && p in h && p in h[c]
    ensures Reaches(h, from, p)
  {
    var walk :| WalkBetween(h, from, c, walk);
    assert WalkBetween(h, from, p, walk + [p]);
  }

  /** The ancestor set, computed by following parents until none is new. */
  method CollectAncestors(h: History, c: Commit) returns (s: set<Commit>)
    ensures s == Ancestors(h, c)
  {
    s := if c in h then {c} else {};
    assert c in h ==> WalkBetween(h, c, c, [c]);
    while exists a, p :: a in s && p in h[a] && p in h && p !in s
      invariant s <= h.Keys && (c in h ==> c in s)
      invariant forall a :: a in s ==> Reaches(h, c, a)
      decreases h.Keys - s
    {
      var a, p :| a in s && p in h[a] && p in h && p !in s;
      StepReaches(h, c, a, p);
      s := s + {p};
    }
    forall a | a in Ancestors(h, c)
      ensures a in s
    {
      var walk :| WalkBetween(h, c, a, walk);
      ClosedHoldsWalk(h, s, walk);
    }
  }

  // ---------------------------------------------------------------- the runner

  datatype Reply<+T> = Answer(value: T) | Fault(failure: Failure)

  function Pack<T>(w: World, r: Reply<T>): Try<T> {
    match r
    case Answer(v) => Ok(w, v)
    case Fault(f) => Failed(w, f)
  }

  /** The git runner and the event channel, over the one world their commands change. */
  class GitRunner {
    var world: World

    constructor (world: World)
      ensures this.world == world
    {
      this.world := world;
    }

    method Finish<T>(outcome: Try<T>) returns (r: Reply<T>)
      modifies this
      ensures Pack(world, r) == outcome
    {
      world := outcome.world;
      r := if outcome.Ok? then Answer(outcome.value) else Fault(outcome.failure);
    }

    method AskWorkTree() returns (b: bool)
      modifies this
      ensures (world, b) == IsWorkTree(old(world))
    {
      var answer := IsWorkTree(world);
      world, b := answer.0, answer.1;
    }

    method AskLocalBranch(name: Name) returns (b: bool)
      modifies this
      ensures (world, b) == HasLocalBranch(old(world), name)
    {
      var answer := HasLocalBranch(world, name);
      world, b := answer.0, answer.1;
    }

    method AskRemoteBranch(name: Name) returns (b: bool)
      modifies this
      ensures (world, b) == HasRemoteBranch(old(world), name)
    {
      var answer := HasRemoteBranch(world, name);
      world, b := answer.0, answer.1;
    }

    method CountRevs(other: Commit, tip: Commit) returns (r: Reply<nat>)
      modifies this
      ensures Pack(world, r) == RevList(old(world), other, tip)
    {
      var count := 0;
      if world.ws.Cloned? {
        var mine := CollectAncestors(world.ws.repo.history, tip);
        var theirs := CollectAncestors(world.ws.repo.history, other);
        count := |mine - theirs|;
      }
      r := Finish(Effect(world, if world.ws.Bare? then None else Some((world.ws, count))));
    }
  }
}

/**
 * The command around a rotation: it makes a new key, has every secret re-encrypted, and puts the new key
 * in place of the old one. It records how far it is before each step, so that a later run can resume.
 *
 * A run may be killed before any of its steps, and so may the rotation it starts; the key files and the
 * record are changed one at a time.
 */
module RotationScript {
  import opened Common
  import opened SecretStore
  import opened KeyRotation

  type Path = string

  datatype Phase = Prepared | Reencrypting | Reencrypted

  /** How far a rotation is, and where the key it replaces will be kept. */
  datatype Progress = Progress(phase: Phase, backup: Path)

  /** The key file, the key that is to replace it, the record, the backups, and the stored secrets. */
  datatype Store = Store(key: Option<KeyMaterial>, newKey: Option<KeyMaterial>, progress: Option<Progress>,
                         backups: map<Path, KeyMaterial>, rows: Rows)

  /** One run: whether it resumes, the key it would make, the time it would name a backup after, and what happens to it. */
  datatype Run = Run(resume: bool, material: KeyMaterial, stamp: Path, fates: seq<Fate>, kills: seq<bool>)

  /** How a run goes on: with a value, or not at all because it was killed; with the steps it may be killed at. */
  datatype Ran<+T> = Went(store: Store, kills: seq<bool>, value: T) | Killed(store: Store) {
    predicate IsFailure() {
      Killed?
    }

    function PropagateFailure<U>(): Ran<U>
      requires Killed?
    {
      Killed(store)
    }

    function Extract(): (Store, seq<bool>, T)
      requires Went?
    {
      (store, kills, value)
    }
  }

  /** What the shell reports for a helper that raised, and for one that was killed. */
  const RAISED := 1
  const SIGKILLED := 137

  /** The exits of the helper, as the script knows them. */
  const EXIT_ABORTED := 2
  const EXIT_ROLLED_BACK := 3

  predicate KilledNow(kills: seq<bool>) {
    kills != [] && kills[0]
  }

  function Onward(kills: seq<bool>): seq<bool> {
    if kills == [] then [] else kills[1..]
  }

  /** One step, unless the run is killed before it. */
  function Step(before: Store, kills: seq<bool>, after: Store): Ran<()> {
    if KilledNow(kills) then Killed(before) else Went(after, Onward(kills), ())
  }

  // ---------------------------------------------------------------- the name of a backup

  function Suffixed(stamp: Path, n: nat): Path {
    stamp + "." + Digits(n)
  }

  /** The first numbered name that is free; `taken` holds the others that may not be. */
  function FirstFree(taken: set<Path>, stamp: Path, n: nat): Path
    decreases |taken|
  {
    var candidate := Suffixed(stamp, n);
    if candidate !in taken then candidate
    else
      assert |taken - {candidate}| < |taken|;
      FirstFree(taken - {candidate}, stamp, n + 1)
  }

  function FreePath(taken: set<Path>, stamp: Path): Path {
    if stamp !in taken then stamp else FirstFree(taken, stamp, 1)
  }

  lemma {:induction false} DigitsInjective(a: nat, b: nat)
    requires Digits(a) == Digits(b)
    ensures a == b
  {
    assert |Digits(a)| == |Digits(b)|;
    if a >= 10 && b >= 10 {
      DigitsEnd(a);
      DigitsEnd(b);
      assert Digits(a)[..|Digits(a)| - 1] == Digits(a / 10) && Digits(b)[..|Digits(b)| - 1] == Digits(b / 10);
      DigitsInjective(a / 10, b / 10);
    } else {
      DigitsEnd(a);
      DigitsEnd(b);
    }
  }

  lemma {:induction false} DigitsEnd(n: nat)
    ensures |Digits(n)| > 0 && Digits(n)[|Digits(n)| - 1] == ('0' as int + n % 10) as char
    ensures n < 10 <==> |Digits(n)| == 1
  {
  }

  lemma SuffixedInjective(stamp: Path, a: nat, b: nat)
    requires Suffixed(stamp, a) == Suffixed(stamp, b)
    ensures a == b
  {
    var prefix := stamp + ".";
    assert Suffixed(stamp, a)[|prefix|..] == Digits(a) && Suffixed(stamp, b)[|prefix|..] == Digits(b);
    DigitsInjective(a, b);
  }

  lemma {:induction false} FirstFreeIsFree(taken: set<Path>, stamp: Path, n: nat) returns (m: nat)
    ensures m >= n && FirstFree(taken, stamp, n) == Suffixed(stamp, m) && Suffixed(stamp, m) !in taken
    decreases |taken|
  {
    var candidate := Suffixed(stamp, n);
    if candidate !in taken {
      m := n;
    } else {
      assert |taken - {candidate}| < |taken|;
      m := FirstFreeIsFree(taken - {candidate}, stamp, n + 1);
      if Suffixed(stamp, m) == candidate {
        SuffixedInjective(stamp, m, n);
      }
    }
  }

  // ---------------------------------------------------------------- the steps

  /** The helper: it rotates the stored secrets between the two keys. */
  function Helper(s: Store, names: seq<SecretKey>, mode: RotationMode, fates: seq<Fate>): (Store, int) {
    if s.key.None? || s.newKey.None? then (s, RAISED)
    else
      match Rotate(World(s.rows, fates), names, Keys(s.key.value, s.newKey.value), mode)
      case Done(w, r) => (s.(rows := w.rows), r.exit.Code())
      case Threw(w) => (s.(rows := w.rows), RAISED)
      case Crashed(w) => (s.(rows := w.rows), SIGKILLED)
  }

  /** Keeps the old key under the backup's name, unless it is there, and makes the new key the current one. */
  function Swap(s: Store, backup: Path, kills: seq<bool>): Ran<()>
    requires s.key.Some?
  {
    if s.newKey.None? then Went(s, kills, ())
    else
      var (s1, kills1, _) :- if backup in s.backups then Went(s, kills, ())
                             else Step(s, kills, s.(backups := s.backups[backup := s.key.value]));
      Step(s1, kills1, s1.(key := s1.newKey, newKey := None))
  }

  function PutInPlace(s: Store, backup: Path, kills: seq<bool>): Ran<int>
    requires s.key.Some?
  {
    var (s1, kills1, _) :- Swap(s, backup, kills);
    var (s2, kills2, _) :- Step(s1, kills1, s1.(progress := None));
    Went(s2, kills2, 0)
  }

  /** Gives the rotation up: the new key goes, and then the record. */
  function GiveUp(s: Store, kills: seq<bool>, code: int): Ran<int> {
    var (s1, kills1, _) :- Step(s, kills, s.(newKey := None));
    var (s2, kills2, _) :- Step(s1, kills1, s1.(progress := None));
    Went(s2, kills2, code)
  }

  /** Whether an exit says that every row is back under the current key. */
  predicate Undone(code: int, mode: RotationMode) {
    code == EXIT_ROLLED_BACK || (code == EXIT_ABORTED && mode == Strict)
  }

  /** What follows on the helper's exit. */
  function Conclude(s: Store, mode: RotationMode, code: int, stamp: Path, kills: seq<bool>): Ran<int>
    requires s.key.Some?
  {
    if code != 0 then
      if Undone(code, mode) then GiveUp(s, kills, code) else Went(s, kills, code)
    else
      var backup := FreePath(s.backups.Keys, stamp);
      var (s1, kills1, _) :- Step(s, kills, s.(progress := Some(Progress(Reencrypted, backup))));
      PutInPlace(s1, backup, kills1)
  }

  function Reencrypt(s: Store, names: seq<SecretKey>, mode: RotationMode, run: Run, kills: seq<bool>): Ran<int>
    requires s.key.Some?
  {
    var (s1, kills1, _) :- Step(s, kills, s.(progress := Some(Progress(Reencrypting, ""))));
    var (s2, kills2, _) :- Step(s1, kills1, s1);
    var (s3, code) := Helper(s2, names, mode, run.fates);
    Conclude(s3, mode, code, run.stamp, kills2)
  }

  /** A rotation from the start: the new key is made, and recorded as prepared. */
  function Begin(s: Store, names: seq<SecretKey>, run: Run): Ran<int>
    requires s.key.Some?
  {
    var (s1, kills1, _) :- Step(s, run.kills, s.(newKey := Some(run.material)));
    var (s2, kills2, _) :- Step(s1, kills1, s1.(progress := Some(Progress(Prepared, ""))));
    Reencrypt(s2, names, Strict, run, kills2)
  }

  function Resume(s: Store, names: seq<SecretKey>, run: Run): Ran<int>
    requires s.key.Some?
  {
    match s.progress
    case None => if s.newKey.None? then Went(s, run.kills, RAISED) else Reencrypt(s, names, Salvage, run, run.kills)
    case Some(Progress(Prepared, _)) => Reencrypt(s, names, Strict, run, run.kills)
    case Some(Progress(Reencrypting, _)) => Reencrypt(s, names, Salvage, run, run.kills)
    case Some(Progress(Reencrypted, backup)) =>
      if backup == "" then Went(s, run.kills, RAISED) else PutInPlace(s, backup, run.kills)
  }

  function RunScript(s: Store, names: seq<SecretKey>, run: Run): Ran<int> {
    if s.key.None? then Went(s, run.kills, RAISED)
    else if run.resume then Resume(s, names, run)
    else if s.newKey.Some? || s.progress.Some? then Went(s, run.kills, RAISED)
    else Begin(s, names, run)
  }

  // ---------------------------------------------------------------- the script

  /** A reply without the files it left. */
  datatype Status<+T> = Alive(value: T) | Dead

  function Tell<T>(s: Store, kills: seq<bool>, status: Status<T>): Ran<T> {
    match status
    case Alive(value) => Went(s, kills, value)
    case Dead => Killed(s)
  }

  /** The key files and the record, beside the row store the helper works on. */
  class KeyDirectory {
    const repo: SecretRepository
    var key: Option<KeyMaterial>
    var newKey: Option<KeyMaterial>
    var progress: Option<Progress>
    var backups: map<Path, KeyMaterial>
    var kills: seq<bool>

    ghost function State(): Store
      reads this, repo
    {
      Store(key, newKey, progress, backups, repo.rows)
    }

    constructor (repo: SecretRepository, key: Option<KeyMaterial>)
      ensures this.repo == repo && State() == Store(key, None, None, map[], repo.rows) && kills == []
    {
      this.repo, this.key, newKey, progress, backups, kills := repo, key, None, None, map[], [];
    }

    /** Whether the run is killed here. */
    method Dies() returns (killed: bool)
      modifies `kills
      ensures killed == KilledNow(old(kills)) && (!killed ==> kills == Onward(old(kills)))
    {
      killed := false;
      if kills != [] {
        killed, kills := kills[0], kills[1..];
      }
    }

    method WriteProgress(progress: Option<Progress>) returns (status: Status<()>)
      modifies `kills, `progress
      ensures Tell(State(), kills, status) == Step(old(State()), old(kills), old(State()).(progress := progress))
    {
      var killed := Dies();
      if killed {
        return Dead;
      }
      this.progress := progress;
      status := Alive(());
    }

    method WriteNewKey(newKey: Option<KeyMaterial>) returns (status: Status<()>)
      modifies `kills, `newKey
      ensures Tell(State(), kills, status) == Step(old(State()), old(kills), old(State()).(newKey := newKey))
    {
      var killed := Dies();
      if killed {
        return Dead;
      }
      this.newKey := newKey;
      status := Alive(());
    }

    /** The first of the names that no backup has yet. */
    method FreeBackupPath(stamp: Path) returns (candidate: Path)
      ensures candidate == FreePath(backups.Keys, stamp)
    {
      candidate := stamp;
      var suffix := 1;
      ghost var taken := backups.Keys;
      while candidate in backups
        invariant suffix >= 1 && taken <= backups.Keys
        invariant forall path :: path in backups && path !in taken ==>
                    exists j: nat :: j < suffix && path == Suffixed(stamp, j)
        invariant FreePath(backups.Keys, stamp)
               == if candidate in backups then FirstFree(taken, stamp, suffix) else candidate
        decreases if candidate in backups then |taken| + 1 else 0
      {
        candidate := Suffixed(stamp, suffix);
        if candidate in backups && candidate !in taken {
          var j: nat :| j < suffix && candidate == Suffixed(stamp, j);
          SuffixedInjective(stamp, suffix, j);
        }
        assert candidate in taken ==> |taken - {candidate}| < |taken|;
        taken := taken - {candidate};
        suffix := suffix + 1;
      }
    }

    method SwapKeys(backup: Path) returns (status: Status<()>)
      requires key.Some?
      modifies `kills, `key, `newKey, `backups
      ensures Tell(State(), kills, status) == Swap(old(State()), backup, old(kills))
    {
      if newKey.None? {
        return Alive(());
      }
      if backup !in backups {
        var killed := Dies();
        if killed {
          return Dead;
        }
        backups := backups[backup := key.value];
      }
      var killed := Dies();
      if killed {
        return Dead;
      }
      key, newKey := newKey, None;
      status := Alive(());
    }

    method PutKeyInPlace(backup: Path) returns (status: Status<int>)
      requires key.Some?
      modifies `kills, `key, `newKey, `backups, `progress
      ensures Tell(State(), kills, status) == PutInPlace(old(State()), backup, old(kills))
    {
      var swapped := SwapKeys(backup);
      if swapped.Dead? {
        return Dead;
      }
      var cleared := WriteProgress(None);
      status := if cleared.Dead? then Dead else Alive(0);
    }

    method Abandon(code: int) returns (status: Status<int>)
      modifies `kills, `newKey, `progress
      ensures Tell(State(), kills, status) == GiveUp(old(State()), old(kills), code)
    {
      var removed := WriteNewKey(None);
      if removed.Dead? {
        return Dead;
      }
      var cleared := WriteProgress(None);
      status := if cleared.Dead? then Dead else Alive(code);
    }

    /** Runs the helper and takes its exit code. */
    method RunHelper(names: seq<SecretKey>, mode: RotationMode) returns (code: int)
      modifies repo
      ensures (State(), code) == Helper(old(State()), names, mode, old(repo.fates))
    {
      if key.None? || newKey.None? {
        return RAISED;
      }
      var r := RotateSecrets(repo, names, Keys(key.value, newKey.value), mode);
      code := match r
        case Returned(result) => result.exit.Code()
        case Raised => RAISED
        case Died => SIGKILLED;
    }

    method ReencryptAll(names: seq<SecretKey>, mode: RotationMode, run: Run) returns (status: Status<int>)
      requires key.Some? && repo.fates == run.fates
      modifies this, repo
      ensures Tell(State(), kills, status) == Reencrypt(old(State()), names, mode, run, old(kills))
    {
      var marked := WriteProgress(Some(Progress(Reencrypting, "")));
      if marked.Dead? {
        return Dead;
      }
      var killed := Dies();
      if killed {
        return Dead;
      }
      var code := RunHelper(names, mode);
      if code != 0 {
        if Undone(code, mode) {
          status := Abandon(code);
        } else {
          status := Alive(code);
        }
        return;
      }
      var backup := FreeBackupPath(run.stamp);
      var recorded := WriteProgress(Some(Progress(Reencrypted, backup)));
      if recorded.Dead? {
        return Dead;
      }
      status := PutKeyInPlace(backup);
    }

    /** One run of the script. */
    method Rotation(names: seq<SecretKey>, run: Run) returns (status: Status<int>)
      requires kills == run.kills && repo.fates == run.fates
      modifies this, repo
      ensures Tell(State(), kills, status) == RunScript(old(State()), names, run)
    {
      if key.None? {
        return Alive(RAISED);
      }
      if !run.resume {
        if newKey.Some? || progress.Some? {
          return Alive(RAISED);
        }
        var made := WriteNewKey(Some(run.material));
        if made.Dead? {
          return Dead;
        }
        var recorded := WriteProgress(Some(Progress(Prepared, "")));
        if recorded.Dead? {
          return Dead;
        }
        status := ReencryptAll(names, Strict, run);
      } else if newKey.None? && progress.None? {
        status := Alive(RAISED);
      } else if progress.Some? && progress.value.phase == Reencrypted {
        if progress.value.backup == "" {
          return Alive(RAISED);
        }
        status := PutKeyInPlace(progress.value.backup);
      } else {
        var prepared := progress.Some? && progress.value.phase == Prepared;
        status := ReencryptAll(names, if prepared then Strict else Salvage, run);
      }
    }
  }
}

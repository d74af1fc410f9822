/**
 * What any number of rotation runs keeps, wherever each of them is killed: no key that a secret may be
 * sealed under is ever lost, and when a run that meets no fault finishes the rotation.
 */
module RotationScriptProofs {
  import opened Common
  import opened SecretStore
  import opened KeyRotation
  import opened RotationProofs
  import opened RotationEnds
  import opened RotationScript

  /** The secret names are distinct, and every stored row has one of them. */
  ghost predicate Covers(names: seq<SecretKey>, rows: Rows) {
    && (forall i, j :: 0 <= i < j < |names| ==> names[i] != names[j])
    && (forall name :: name in rows ==> name in names)
  }

  /** Every row is the secret of its own name, sealed under one key. */
  ghost predicate Wholly(rows: Rows, key: KeyMaterial) {
    forall name :: name in rows ==> rows[name].boundTo == name && rows[name].sealedUnder == key
  }

  ghost predicate NoneUnder(rows: Rows, key: KeyMaterial) {
    forall name :: name in rows ==> rows[name].sealedUnder != key
  }

  predicate InUse(s: Store, key: KeyMaterial) {
    s.key == Some(key) || s.newKey == Some(key)
  }

  predicate Kept(s: Store, key: KeyMaterial) {
    s.key == Some(key) || key in s.backups.Values
  }

  /** What the record promises. */
  ghost predicate Recorded(s: Store) {
    match s.progress
    case None => true
    case Some(Progress(Prepared, _)) => s.newKey.Some? && NoneUnder(s.rows, s.newKey.value)
    case Some(Progress(Reencrypting, _)) => true
    case Some(Progress(Reencrypted, backup)) =>
      && backup != ""
      && if s.newKey.Some? then
           Wholly(s.rows, s.newKey.value) && (backup in s.backups ==> Some(s.backups[backup]) == s.key)
         else s.key.Some? && Wholly(s.rows, s.key.value)
  }

  ghost predicate Sound(s: Store) {
    s.key.Some? && (s.newKey.Some? ==> s.newKey != s.key) && Recorded(s)
  }

  /**
   * Of the rows as they were when one key was current: a secret that was sealed under that key is the same
   * secret still, under a key that is in use; any other row is as it was.
   */
  ghost predicate Holds(origin: Rows, first: KeyMaterial, s: Store) {
    && s.rows.Keys == origin.Keys
    && forall name :: name in origin ==>
         if origin[name].sealedUnder == first then
           SameSecret(origin[name], s.rows[name]) && InUse(s, s.rows[name].sealedUnder)
         else s.rows[name] == origin[name] && !InUse(s, s.rows[name].sealedUnder)
  }

  predicate SameSecret(a: Envelope, b: Envelope) {
    a.boundTo == b.boundTo && a.plaintext == b.plaintext && a.version == b.version
  }

  ghost predicate Inv(origin: Rows, first: KeyMaterial, s: Store) {
    Sound(s) && Holds(origin, first, s)
  }

  /** A key nothing was sealed under and no file holds. */
  ghost predicate Unused(s: Store, key: KeyMaterial) {
    NoneUnder(s.rows, key) && !InUse(s, key) && !Kept(s, key)
  }

  /** Nothing that was kept is lost. */
  ghost predicate Retains(before: Store, after: Store) {
    forall key :: Kept(before, key) ==> Kept(after, key)
  }

  // ---------------------------------------------------------------- the name of a backup

  /** No backup is written over, and none is nameless. */
  lemma FreePathIsFree(taken: set<Path>, stamp: Path)
    requires stamp != ""
    ensures FreePath(taken, stamp) !in taken && FreePath(taken, stamp) != ""
  {
    if stamp in taken {
      var m := FirstFreeIsFree(taken, stamp, 1);
    }
  }

  // ---------------------------------------------------------------- each step

  /** What the helper's exit says about the rows it leaves. */
  lemma HelperTells(s: Store, names: seq<SecretKey>, mode: RotationMode, fates: seq<Fate>)
    requires s.key.Some? && s.newKey.Some? && s.newKey != s.key && Covers(names, s.rows)
    ensures var (after, code) := Helper(s, names, mode, fates);
      && after == s.(rows := after.rows)
      && Preserved(s.rows, after.rows, Keys(s.key.value, s.newKey.value))
      && (code == 0 ==> Wholly(after.rows, s.newKey.value))
      && (code == EXIT_ABORTED ==> after.rows == s.rows)
      && (code == EXIT_ROLLED_BACK ==> Wholly(after.rows, s.key.value))
  {
    RotationKeepsEverySecret(World(s.rows, fates), names, Keys(s.key.value, s.newKey.value), mode);
  }

  lemma HelperKeeps(s: Store, names: seq<SecretKey>, mode: RotationMode, fates: seq<Fate>, origin: Rows, first: KeyMaterial)
    requires Covers(names, s.rows) && Inv(origin, first, s) && s.progress == Some(Progress(Reencrypting, ""))
    requires mode == Strict && s.newKey.Some? ==> NoneUnder(s.rows, s.newKey.value)
    ensures var (after, code) := Helper(s, names, mode, fates);
      && after == s.(rows := after.rows) && Inv(origin, first, after)
      && (code == 0 ==> s.newKey.Some? && Wholly(after.rows, s.newKey.value))
      && (Undone(code, mode) ==> s.newKey.Some? && NoneUnder(after.rows, s.newKey.value))
  {
    if s.newKey.Some? {
      HelperTells(s, names, mode, fates);
      PreservedHolds(s, Helper(s, names, mode, fates).0.rows, origin, first);
    }
  }

  lemma PreservedHolds(s: Store, rows: Rows, origin: Rows, first: KeyMaterial)
    requires s.key.Some? && s.newKey.Some? && Holds(origin, first, s)
    requires Preserved(s.rows, rows, Keys(s.key.value, s.newKey.value))
    ensures Holds(origin, first, s.(rows := rows))
  {
    var after := s.(rows := rows);
    forall name | name in origin
      ensures if origin[name].sealedUnder == first then
                SameSecret(origin[name], rows[name]) && InUse(after, rows[name].sealedUnder)
              else rows[name] == origin[name] && !InUse(after, rows[name].sealedUnder)
    {
      assert rows[name] == s.rows[name] || Resealed(name, s.rows[name], rows[name], Keys(s.key.value, s.newKey.value));
    }
  }

  lemma GiveUpKeeps(s: Store, kills: seq<bool>, code: int, origin: Rows, first: KeyMaterial)
    requires Inv(origin, first, s) && s.progress == Some(Progress(Reencrypting, ""))
    requires s.newKey.Some? && NoneUnder(s.rows, s.newKey.value)
    ensures var r := GiveUp(s, kills, code); Inv(origin, first, r.store) && Retains(s, r.store)
    ensures var r := GiveUp(s, kills, code); r.Went? ==> r.value == code && r.store == s.(newKey := None, progress := None)
  {
    assert Inv(origin, first, s.(newKey := None));
  }

  lemma PutInPlaceKeeps(s: Store, backup: Path, kills: seq<bool>, origin: Rows, first: KeyMaterial)
    requires Inv(origin, first, s) && s.progress == Some(Progress(Reencrypted, backup))
    ensures var r := PutInPlace(s, backup, kills); Inv(origin, first, r.store) && Retains(s, r.store)
    ensures var r := PutInPlace(s, backup, kills);
      r.Went? ==>
        && r.value == 0 && r.store.newKey.None? && r.store.progress.None? && r.store.rows == s.rows
        && r.store.key == (if s.newKey.Some? then s.newKey else s.key) && Wholly(s.rows, r.store.key.value)
  {
    if s.newKey.Some? {
      var s1 := if backup in s.backups then s else s.(backups := s.backups[backup := s.key.value]);
      if backup !in s.backups {
        BackupKeeps(s, backup);
      }
      var s2 := s1.(key := s.newKey, newKey := None);
      assert s.key.value in s1.backups.Values by {
        assert backup in s1.backups && s1.backups[backup] == s.key.value;
      }
      assert Inv(origin, first, s1) && Inv(origin, first, s2) && Retains(s, s2);
    }
  }

  lemma BackupKeeps(s: Store, backup: Path)
    requires s.key.Some? && backup !in s.backups
    ensures Retains(s, s.(backups := s.backups[backup := s.key.value]))
  {
    var more := s.backups[backup := s.key.value];
    forall key | key in s.backups.Values
      ensures key in more.Values
    {
      var path :| path in s.backups && s.backups[path] == key;
      assert path in more && more[path] == key;
    }
  }

  lemma ConcludeKeeps(s: Store, mode: RotationMode, code: int, stamp: Path, kills: seq<bool>, origin: Rows,
                      first: KeyMaterial)
    requires Inv(origin, first, s) && s.progress == Some(Progress(Reencrypting, "")) && stamp != ""
    requires code == 0 ==> s.newKey.Some? && Wholly(s.rows, s.newKey.value)
    requires Undone(code, mode) ==> s.newKey.Some? && NoneUnder(s.rows, s.newKey.value)
    ensures var r := Conclude(s, mode, code, stamp, kills); Inv(origin, first, r.store) && Retains(s, r.store)
    ensures var r := Conclude(s, mode, code, stamp, kills); r.Went? ==> r.value == code && Ended(s, s.newKey, r.store, code)
  {
    if code == 0 {
      var backup := FreePath(s.backups.Keys, stamp);
      FreePathIsFree(s.backups.Keys, stamp);
      var s1 := s.(progress := Some(Progress(Reencrypted, backup)));
      assert Inv(origin, first, s1) && Retains(s, s1);
      PutInPlaceKeeps(s1, backup, Onward(kills), origin, first);
    } else if Undone(code, mode) {
      GiveUpKeeps(s, kills, code, origin, first);
    }
  }

  /** The two places a run may be killed at before the helper is started. */
  lemma ReencryptSteps(s: Store, names: seq<SecretKey>, mode: RotationMode, run: Run, kills: seq<bool>)
    requires s.key.Some?
    ensures var marked := s.(progress := Some(Progress(Reencrypting, "")));
      var (after, code) := Helper(marked, names, mode, run.fates);
      after.key.Some?
      && Reencrypt(s, names, mode, run, kills) ==
         if KilledNow(kills) then Killed(s)
         else if KilledNow(Onward(kills)) then Killed(marked)
         else Conclude(after, mode, code, run.stamp, Onward(Onward(kills)))
  {
  }

  /** The record and the new key matter to the invariant only as far as they go. */
  lemma MarkKeeps(s: Store, origin: Rows, first: KeyMaterial)
    requires Inv(origin, first, s)
    ensures Inv(origin, first, s.(progress := Some(Progress(Reencrypting, ""))))
  {
  }

  lemma ReencryptKeeps(s: Store, names: seq<SecretKey>, mode: RotationMode, run: Run, kills: seq<bool>,
                       origin: Rows, first: KeyMaterial)
    requires Covers(names, s.rows) && Inv(origin, first, s) && run.stamp != ""
    requires mode == Strict && s.newKey.Some? ==> NoneUnder(s.rows, s.newKey.value)
    ensures var r := Reencrypt(s, names, mode, run, kills); Inv(origin, first, r.store) && Retains(s, r.store)
    ensures var r := Reencrypt(s, names, mode, run, kills); r.Went? ==> Ended(s, s.newKey, r.store, r.value)
  {
    var marked := s.(progress := Some(Progress(Reencrypting, "")));
    MarkKeeps(s, origin, first);
    ReencryptSteps(s, names, mode, run, kills);
    if !KilledNow(kills) && !KilledNow(Onward(kills)) {
      HelperKeeps(marked, names, mode, run.fates, origin, first);
      var (after, code) := Helper(marked, names, mode, run.fates);
      ConcludeKeeps(after, mode, code, run.stamp, Onward(Onward(kills)), origin, first);
    }
  }

  // ---------------------------------------------------------------- a run

  /** How a run that was not killed leaves the files: with the new key in place, without it, or to be resumed. */
  ghost predicate Ended(s: Store, newKey: Option<KeyMaterial>, after: Store, code: int) {
    if code == 0 then
      && after.newKey.None? && after.progress.None? && after.key.Some? && Wholly(after.rows, after.key.value)
      && after.key == if newKey.Some? then newKey else s.key
    else if after.newKey.None? && newKey.Some? then
      && after.progress.None? && after.key == s.key && NoneUnder(after.rows, newKey.value)
      && (code == EXIT_ROLLED_BACK || code == EXIT_ABORTED)
    else after.newKey == newKey && after.key == s.key
  }

  /** The new key this run is about: the one that is there, or the one it makes. */
  function Successor(s: Store, run: Run): Option<KeyMaterial> {
    if s.newKey.None? && s.progress.None? && !run.resume then Some(run.material) else s.newKey
  }

  lemma RunKeeps(s: Store, names: seq<SecretKey>, run: Run, origin: Rows, first: KeyMaterial)
    requires Covers(names, s.rows) && Inv(origin, first, s) && Unused(s, run.material) && run.stamp != ""
    ensures var r := RunScript(s, names, run); Inv(origin, first, r.store) && Retains(s, r.store)
    ensures var r := RunScript(s, names, run); r.Went? ==> Ended(s, Successor(s, run), r.store, r.value)
  {
    if run.resume {
      match s.progress
      case None => if s.newKey.Some? { ReencryptKeeps(s, names, Salvage, run, run.kills, origin, first); }
      case Some(Progress(Prepared, _)) => ReencryptKeeps(s, names, Strict, run, run.kills, origin, first);
      case Some(Progress(Reencrypting, _)) => ReencryptKeeps(s, names, Salvage, run, run.kills, origin, first);
      case Some(Progress(Reencrypted, backup)) => PutInPlaceKeeps(s, backup, run.kills, origin, first);
    } else if s.newKey.None? && s.progress.None? {
      var s1 := s.(newKey := Some(run.material));
      var s2 := s1.(progress := Some(Progress(Prepared, "")));
      assert Inv(origin, first, s1) && Inv(origin, first, s2);
      ReencryptKeeps(s2, names, Strict, run, Onward(Onward(run.kills)), origin, first);
    }
  }

  // ---------------------------------------------------------------- any number of runs

  /** The files and the rows after a number of runs, each of which ends as it may or is killed somewhere. */
  function AfterAll(s: Store, names: seq<SecretKey>, runs: seq<Run>): Store
    decreases runs
  {
    if runs == [] then s else AfterAll(RunScript(s, names, runs[0]).store, names, runs[1..])
  }

  /** Every run would make a key that is used nowhere. */
  ghost predicate FreshKeys(s: Store, names: seq<SecretKey>, runs: seq<Run>)
    decreases runs
  {
    runs == [] || (&& Unused(s, runs[0].material) && runs[0].stamp != ""
                   && FreshKeys(RunScript(s, names, runs[0]).store, names, runs[1..]))
  }

  lemma RetainsTransitive(a: Store, b: Store, c: Store)
    requires Retains(a, b) && Retains(b, c)
    ensures Retains(a, c)
  {
  }

  lemma {:induction false} RunsKeep(s: Store, names: seq<SecretKey>, runs: seq<Run>, origin: Rows, first: KeyMaterial)
    requires Covers(names, origin) && Inv(origin, first, s) && FreshKeys(s, names, runs)
    ensures Inv(origin, first, AfterAll(s, names, runs)) && Retains(s, AfterAll(s, names, runs))
    decreases runs
  {
    if runs != [] {
      RunKeeps(s, names, runs[0], origin, first);
      var next := RunScript(s, names, runs[0]).store;
      RunsKeep(next, names, runs[1..], origin, first);
      RetainsTransitive(s, next, AfterAll(s, names, runs));
    }
  }

  lemma {:induction false} AllInParts(s: Store, names: seq<SecretKey>, runs: seq<Run>, i: nat)
    requires i <= |runs|
    ensures AfterAll(s, names, runs) == AfterAll(AfterAll(s, names, runs[..i]), names, runs[i..])
    ensures FreshKeys(s, names, runs) ==>
      FreshKeys(s, names, runs[..i]) && FreshKeys(AfterAll(s, names, runs[..i]), names, runs[i..])
    decreases runs
  {
    if i == 0 {
      assert runs[0..] == runs;
    } else {
      AllInParts(RunScript(s, names, runs[0]).store, names, runs[1..], i - 1);
      assert runs[..i][1..] == runs[1..][..i - 1] && runs[1..][i - 1..] == runs[i..];
    }
  }

  /** A store that no rotation is under way on. */
  predicate AtRest(s: Store) {
    s.key.Some? && s.newKey.None? && s.progress.None?
  }

  /**
   * Whatever happens to any number of runs, and wherever each of them is killed: the key file exists, every
   * secret that was sealed under the key is the same secret under one of the two keys that are on disk, no
   * other row is touched, and every key that was ever the current one is still that, or in a backup.
   */
  lemma {:induction false} NoSecretIsLost(s: Store, names: seq<SecretKey>, runs: seq<Run>, i: nat)
    requires AtRest(s) && Covers(names, s.rows) && FreshKeys(s, names, runs) && i <= |runs|
    ensures var middle, after := AfterAll(s, names, runs[..i]), AfterAll(s, names, runs);
      && Holds(s.rows, s.key.value, after)
      && after.key.Some? && middle.key.Some? && Kept(after, middle.key.value)
  {
    AllInParts(s, names, runs, i);
    RunsKeep(s, names, runs, s.rows, s.key.value);
    RunsKeep(s, names, runs[..i], s.rows, s.key.value);
    var middle := AfterAll(s, names, runs[..i]);
    RunsKeep(middle, names, runs[i..], s.rows, s.key.value);
    assert Kept(middle, middle.key.value);
  }

  // ---------------------------------------------------------------- finishing

  /** Every row opens under one key at the version a rotation stamps, and none is empty. */
  ghost predicate Rotatable(rows: Rows, names: seq<SecretKey>, key: KeyMaterial) {
    forall name :: name in rows ==>
      Opens(name, rows[name], Service(key, HighestVersion(rows, names, MASTER_KEY_VERSION))) && rows[name].plaintext != ""
  }

  /** A run that nothing happens to, and that resumes if there is something to resume. */
  predicate Undisturbed(s: Store, run: Run) {
    run.fates == [] && run.kills == [] && run.resume == (s.newKey.Some? || s.progress.Some?)
  }

  /** Which stores the helper moves when nothing happens to it. */
  ghost predicate Movable(s: Store, names: seq<SecretKey>, mode: RotationMode, newKey: KeyMaterial)
    requires s.key.Some?
  {
    if mode == Strict then Rotatable(s.rows, names, s.key.value)
    else Recoverable(s.rows, names, Keys(s.key.value, newKey))
  }

  lemma HelperExactly(s: Store, names: seq<SecretKey>, mode: RotationMode)
    requires Covers(names, s.rows) && Sound(s)
    ensures var (_, code) := Helper(s, names, mode, []);
      code == 0 <==> s.newKey.Some? && Movable(s, names, mode, s.newKey.value)
  {
    if s.newKey.Some? {
      FaultFreeRotation(s.rows, names, Keys(s.key.value, s.newKey.value), mode);
    }
  }

  lemma ReencryptExactly(s: Store, names: seq<SecretKey>, mode: RotationMode, run: Run)
    requires Covers(names, s.rows) && Sound(s) && run.fates == []
    ensures var r := Reencrypt(s, names, mode, run, []);
      r.Went? && (r.value == 0 <==> s.newKey.Some? && Movable(s, names, mode, s.newKey.value))
  {
    var marked := s.(progress := Some(Progress(Reencrypting, "")));
    ReencryptSteps(s, names, mode, run, []);
    HelperExactly(marked, names, mode);
  }

  /** The mode in which a store is taken up again. */
  function ModeOf(s: Store): RotationMode {
    if AtRest(s) || (s.progress.Some? && s.progress.value.phase.Prepared?) then Strict else Salvage
  }

  /**
   * A run that nothing happens to finishes the rotation exactly if only the files are left to change, or
   * there is a new key, or it makes one, and the secrets can be moved to it in the mode it is in.
   */
  lemma FinishesExactly(s: Store, names: seq<SecretKey>, run: Run)
    requires Covers(names, s.rows) && Sound(s) && Undisturbed(s, run) && Unused(s, run.material)
    ensures var r := RunScript(s, names, run);
      r.Went? && (r.value == 0 <==>
        || (s.progress.Some? && s.progress.value.phase.Reencrypted?)
        || (Successor(s, run).Some? && Movable(s, names, ModeOf(s), Successor(s, run).value)))
  {
    if !run.resume {
      var prepared := s.(newKey := Some(run.material), progress := Some(Progress(Prepared, "")));
      assert Sound(prepared);
      ReencryptExactly(prepared, names, Strict, run);
    } else if !(s.progress.Some? && s.progress.value.phase.Reencrypted?) && s.newKey.Some? {
      ReencryptExactly(s, names, ModeOf(s), run);
    } else if s.progress.Some? && s.progress.value.phase.Reencrypting? {
      ReencryptExactly(s, names, Salvage, run);
    }
  }

  /** The record speaks of a new key that is not there. */
  predicate Stuck(s: Store) {
    s.newKey.None? && s.progress.Some? && s.progress.value.phase.Reencrypting?
  }

  /** The rows of a store that could be rotated at first can be rotated still, from one key or from both. */
  lemma StaysMovable(origin: Rows, first: KeyMaterial, s: Store, names: seq<SecretKey>)
    requires Inv(origin, first, s) && Rotatable(origin, names, first)
    ensures s.newKey.Some? ==> Recoverable(s.rows, names, Keys(s.key.value, s.newKey.value))
    ensures s.newKey.None? || NoneUnder(s.rows, s.newKey.value) ==> Rotatable(s.rows, names, s.key.value)
  {
    assert forall name :: name in origin ==> origin[name].sealedUnder == first;
    SameVersionsSameHighest(origin, s.rows, names, MASTER_KEY_VERSION);
  }

  /**
   * From a store whose secrets can be rotated, after any number of runs, wherever each was killed, one
   * undisturbed run finishes the rotation, with every secret the same under the key that is then current,
   * exactly if the record does not speak of a new key that is not there.
   */
  lemma {:induction false} OneMoreRunFinishes(s: Store, names: seq<SecretKey>, runs: seq<Run>, last: Run)
    requires AtRest(s) && Covers(names, s.rows) && Rotatable(s.rows, names, s.key.value)
    requires FreshKeys(s, names, runs + [last]) && Undisturbed(AfterAll(s, names, runs), last)
    ensures var middle := AfterAll(s, names, runs);
      var r := RunScript(middle, names, last);
      && r.Went? && (r.value == 0 <==> !Stuck(middle))
      && (r.value == 0 ==>
            && AtRest(r.store) && Wholly(r.store.rows, r.store.key.value) && r.store.rows.Keys == s.rows.Keys
            && forall name :: name in s.rows ==> SameSecret(s.rows[name], r.store.rows[name]))
  {
    AllInParts(s, names, runs + [last], |runs|);
    assert (runs + [last])[..|runs|] == runs && (runs + [last])[|runs|..] == [last];
    RunsKeep(s, names, runs, s.rows, s.key.value);
    var middle := AfterAll(s, names, runs);
    RunKeeps(middle, names, last, s.rows, s.key.value);
    StaysMovable(s.rows, s.key.value, middle, names);
    FinishesExactly(middle, names, last);
  }

  // ---------------------------------------------------------------- being stuck

  /** Nothing is lost when the record speaks of a key that is not there: every secret is under the current key. */
  lemma StuckHoldsAll(s: Store, origin: Rows, first: KeyMaterial, name: SecretKey)
    requires Inv(origin, first, s) && Stuck(s) && name in origin && origin[name].sealedUnder == first
    ensures s.key == Some(s.rows[name].sealedUnder)
  {
  }

  /** But no run ever finishes from there, or changes anything. */
  lemma {:induction false} StuckForever(s: Store, names: seq<SecretKey>, runs: seq<Run>)
    requires Stuck(s) && s.key.Some?
    ensures var after := AfterAll(s, names, runs);
      Stuck(after) && after.key == s.key && after.rows == s.rows && after.backups == s.backups
    ensures runs != [] && RunScript(s, names, runs[0]).Went? ==> RunScript(s, names, runs[0]).value != 0
    decreases runs
  {
    if runs != [] {
      StuckForever(RunScript(s, names, runs[0]).store, names, runs[1..]);
    }
  }

  /** A run that is not killed never leaves it so. */
  lemma StuckOnlyByKill(s: Store, names: seq<SecretKey>, run: Run, origin: Rows, first: KeyMaterial)
    requires Covers(names, s.rows) && Inv(origin, first, s) && Unused(s, run.material) && run.stamp != ""
    requires !Stuck(s) && Stuck(RunScript(s, names, run).store)
    ensures RunScript(s, names, run).Killed?
  {
    RunKeeps(s, names, run, origin, first);
  }

  /** A first run whose first read of a secret fails, killed between the removal of the new key and that of the record. */
  function KilledGivingUp(names: seq<SecretKey>, material: KeyMaterial, stamp: Path): Run {
    Run(false, material, stamp, Quiet(|names|) + [Rejected], [false, false, false, false, false, true])
  }

  /** It can happen to every store. */
  lemma GetsStuck(s: Store, names: seq<SecretKey>, material: KeyMaterial, stamp: Path)
    requires AtRest(s) && names != []
    ensures var r := RunScript(s, names, KilledGivingUp(names, material, stamp));
      r.Killed? && Stuck(r.store) && r.store == s.(progress := Some(Progress(Reencrypting, "")))
  {
    var run := KilledGivingUp(names, material, stamp);
    var prepared := s.(newKey := Some(material), progress := Some(Progress(Prepared, "")));
    var marked := prepared.(progress := Some(Progress(Reencrypting, "")));
    ReadFails(s.rows, names, Keys(s.key.value, material));
    assert Helper(marked, names, Strict, run.fates) == (marked, EXIT_ABORTED);
    ReencryptSteps(prepared, names, Strict, run, [false, false, false, true]);
    assert RunScript(s, names, run) == Reencrypt(prepared, names, Strict, run, [false, false, false, true]);
  }

  lemma ReadFails(rows: Rows, names: seq<SecretKey>, keys: Keys)
    requires names != []
    ensures var o := Rotate(World(rows, Quiet(|names|) + [Rejected]), names, keys, Strict);
      o.Done? && o.value.exit == Aborted && o.world.rows == rows
  {
    VersionInQuiet(World(rows, Quiet(|names|) + [Rejected]), names, MASTER_KEY_VERSION, |names|, [Rejected]);
    assert Quiet(0) + [Rejected] == [Rejected];
  }
}

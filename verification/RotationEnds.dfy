/**
 * How a rotation ends, in terms of the fates its calls meet: where the write loop stops, which
 * write-backs fail, and which of the exits that gives.
 */
module RotationEnds {
  import opened Common
  import opened SecretStore
  import opened KeyRotation
  import opened RotationProofs

  /** The fate of the call after n more. */
  function FateAt(fates: seq<Fate>, n: nat): Fate {
    if n < |fates| then fates[n] else Answered
  }

  /** The fates after n calls. */
  function Later(fates: seq<Fate>, n: nat): seq<Fate> {
    if n < |fates| then fates[n..] else []
  }

  predicate Rejecting(fate: Fate) {
    fate.Rejected? || fate.AppliedThenRejected?
  }

  lemma LaterFate(fates: seq<Fate>, n: nat, m: nat)
    ensures FateAt(Later(fates, n), m) == FateAt(fates, n + m)
    ensures Later(Later(fates, n), m) == Later(fates, n + m)
  {
  }

  /** A write ends as its fate says; an empty plaintext raises without a call. */
  lemma SetEnds(w: World, service: Service, name: SecretKey, plaintext: string)
    ensures var o, fate := SetSecret(w, service, name, plaintext), FateAt(w.fates, 0);
      && (o.Done? <==> plaintext != "" && fate.Answered?)
      && (o.Threw? <==> plaintext == "" || Rejecting(fate))
      && o.world.fates == Later(w.fates, if plaintext == "" then 0 else 1)
  {
  }

  // ---------------------------------------------------------------- the write loop

  /** The loop stops at item j: everything before it was written and acknowledged, and it was not. */
  ghost predicate StopsAt(fates: seq<Fate>, todo: seq<(SecretKey, string)>, j: nat) {
    && j <= |todo|
    && (forall i :: 0 <= i < j ==> todo[i].1 != "" && FateAt(fates, i).Answered?)
    && (j < |todo| ==> todo[j].1 == "" || !FateAt(fates, j).Answered?)
  }

  /**
   * The write loop stops at the first secret that is empty or whose write is not acknowledged, and raises
   * exactly if that one is empty or rejected; what it counts as issued is what it was handed and every
   * secret up to and with that one.
   */
  lemma {:induction false} WriteLoopStops(w: World, replacement: Service, todo: seq<(SecretKey, string)>, issued: Plaintexts)
    returns (j: nat)
    ensures StopsAt(w.fates, todo, j)
    ensures var l := WriteAll(w, replacement, todo, issued);
      && (l.outcome.Done? <==> j == |todo|)
      && (l.outcome.Threw? <==> j < |todo| && (todo[j].1 == "" || Rejecting(FateAt(w.fates, j))))
      && (forall name :: name in l.sealedUnderNewKey
            <==> name in issued || exists i :: 0 <= i <= j && i < |todo| && todo[i].0 == name)
      && l.outcome.world.fates == Later(w.fates, if j < |todo| && todo[j].1 != "" then j + 1 else j)
    decreases todo
  {
    if todo == [] {
      j := 0;
    } else {
      var name, p := todo[0].0, todo[0].1;
      var o := SetSecret(w, replacement, name, p);
      SetEnds(w, replacement, name, p);
      if o.Done? {
        var rest := todo[1..];
        var k := WriteLoopStops(o.world, replacement, rest, issued[name := p]);
        j := k + 1;
        OneFurther(w.fates, todo, k);
        LaterFate(w.fates, 1, if k < |rest| && rest[k].1 != "" then k + 1 else k);
        UpTo(todo, k);
      } else {
        j := 0;
      }
    }
  }

  lemma OneFurther(fates: seq<Fate>, todo: seq<(SecretKey, string)>, k: nat)
    requires todo != [] && todo[0].1 != "" && FateAt(fates, 0).Answered? && StopsAt(Later(fates, 1), todo[1..], k)
    ensures StopsAt(fates, todo, k + 1)
    ensures k < |todo| - 1 ==> todo[1..][k] == todo[k + 1] && FateAt(Later(fates, 1), k) == FateAt(fates, k + 1)
  {
    forall i: nat
      ensures FateAt(Later(fates, 1), i) == FateAt(fates, i + 1)
    {
      LaterFate(fates, 1, i);
    }
    forall i | 0 <= i < k + 1
      ensures todo[i].1 != "" && FateAt(fates, i).Answered?
    {
      if i > 0 {
        assert todo[1..][i - 1] == todo[i] && FateAt(Later(fates, 1), i - 1).Answered?;
      }
    }
  }

  ghost predicate Among(todo: seq<(SecretKey, string)>, j: nat, name: SecretKey) {
    exists i :: 0 <= i <= j && i < |todo| && todo[i].0 == name
  }

  lemma UpTo(todo: seq<(SecretKey, string)>, k: nat)
    requires todo != []
    ensures forall name :: Among(todo, k + 1, name) <==> name == todo[0].0 || Among(todo[1..], k, name)
  {
    forall name
      ensures Among(todo, k + 1, name) <==> name == todo[0].0 || Among(todo[1..], k, name)
    {
      if Among(todo[1..], k, name) {
        var i :| 0 <= i <= k && i < |todo| - 1 && todo[1..][i].0 == name;
        assert todo[i + 1].0 == name;
      }
      if Among(todo, k + 1, name) && name != todo[0].0 {
        var i :| 0 <= i <= k + 1 && i < |todo| && todo[i].0 == name;
        assert todo[1..][i - 1].0 == name;
      }
    }
  }

  // ---------------------------------------------------------------- the rollback loop

  /** How many writes the rollback makes for a run of names: one for each that was issued and is not empty. */
  function WriteBacks(names: seq<SecretKey>, issued: Plaintexts): nat {
    if names == [] then 0
    else
      var n := |names| - 1;
      WriteBacks(names[..n], issued) + if names[n] in issued && issued[names[n]] != "" then 1 else 0
  }

  lemma {:induction false} WriteBacksFirst(names: seq<SecretKey>, issued: Plaintexts)
    requires names != []
    ensures WriteBacks(names, issued)
         == (if names[0] in issued && issued[names[0]] != "" then 1 else 0) + WriteBacks(names[1..], issued)
  {
    if |names| > 1 {
      var n := |names| - 1;
      WriteBacksFirst(names[..n], issued);
      assert names[..n][1..] == names[1..][..n - 1];
    } else {
      assert names[..0] == [] == names[1..];
    }
  }

  /** The write-back of the k-th name raises: it was issued, and it is empty or its own call is rejected. */
  predicate BackRaises(fates: seq<Fate>, names: seq<SecretKey>, issued: Plaintexts, k: nat)
    requires k < |names|
  {
    && names[k] in issued
    && (issued[names[k]] == "" || Rejecting(FateAt(fates, WriteBacks(names[..k], issued))))
  }

  /** The process dies in the write-back of the k-th name. */
  predicate BackKills(fates: seq<Fate>, names: seq<SecretKey>, issued: Plaintexts, k: nat)
    requires k < |names|
  {
    && names[k] in issued && issued[names[k]] != ""
    && var fate := FateAt(fates, WriteBacks(names[..k], issued)); fate.CrashedBefore? || fate.CrashedAfter?
  }

  /** What holds of the rest of the names after the first write-back, holds of them in the whole. */
  lemma {:induction false} BackNext(fates: seq<Fate>, names: seq<SecretKey>, issued: Plaintexts, k: nat)
    requires 0 < k < |names|
    ensures var later := Later(fates, WriteBacks(names[..1], issued));
      && BackRaises(fates, names, issued, k) == BackRaises(later, names[1..], issued, k - 1)
      && BackKills(fates, names, issued, k) == BackKills(later, names[1..], issued, k - 1)
  {
    assert names[..k][..1] == names[..1] && names[..k][1..] == names[1..][..k - 1];
    WriteBacksFirst(names[..k], issued);
    assert names[..1][..0] == [] && names[..1][0] == names[..k][0];
    LaterFate(fates, WriteBacks(names[..1], issued), WriteBacks(names[1..][..k - 1], issued));
  }

  /** The names whose write-back raises, in storage order. */
  function Failing(fates: seq<Fate>, names: seq<SecretKey>, issued: Plaintexts, n: nat): seq<SecretKey>
    requires n <= |names|
  {
    if n == 0 then []
    else Failing(fates, names, issued, n - 1) + if BackRaises(fates, names, issued, n - 1) then [names[n - 1]] else []
  }

  lemma {:induction false} FailingNext(fates: seq<Fate>, names: seq<SecretKey>, issued: Plaintexts, n: nat)
    requires 0 < n <= |names|
    ensures Failing(fates, names, issued, n)
         == (if BackRaises(fates, names, issued, 0) then [names[0]] else [])
          + Failing(Later(fates, WriteBacks(names[..1], issued)), names[1..], issued, n - 1)
  {
    if n > 1 {
      FailingNext(fates, names, issued, n - 1);
      BackNext(fates, names, issued, n - 1);
    }
  }

  ghost predicate NoneKills(fates: seq<Fate>, names: seq<SecretKey>, issued: Plaintexts) {
    forall k :: 0 <= k < |names| ==> !BackKills(fates, names, issued, k)
  }

  lemma {:induction false} NoneKillsFirst(fates: seq<Fate>, names: seq<SecretKey>, issued: Plaintexts)
    requires names != []
    ensures NoneKills(fates, names, issued)
        <==> !BackKills(fates, names, issued, 0)
             && NoneKills(Later(fates, WriteBacks(names[..1], issued)), names[1..], issued)
  {
    var later := Later(fates, WriteBacks(names[..1], issued));
    forall k | 0 < k < |names|
      ensures BackKills(fates, names, issued, k) == BackKills(later, names[1..], issued, k - 1)
    {
      BackNext(fates, names, issued, k);
    }
    forall k | 0 <= k < |names| - 1
      ensures BackKills(later, names[1..], issued, k) == BackKills(fates, names, issued, k + 1)
    {
      BackNext(fates, names, issued, k + 1);
    }
  }

  /** The rollback returns unless the process dies in it, and reports exactly the names whose write-back raised, in order. */
  lemma {:induction false} CompensateExactly(w: World, current: Service, names: seq<SecretKey>, issued: Plaintexts,
                                             stranded: seq<SecretKey>)
    ensures var o := Compensate(w, current, names, issued, stranded);
      && (o.Done? <==> NoneKills(w.fates, names, issued))
      && (o.Done? ==> o.value == stranded + Failing(w.fates, names, issued, |names|))
    decreases names
  {
    if names == [] {
      assert stranded + [] == stranded;
    } else {
      var name, rest, later := names[0], names[1..], Later(w.fates, WriteBacks(names[..1], issued));
      assert names[..0] == [] && names[..1][..0] == [];
      NoneKillsFirst(w.fates, names, issued);
      FailingNext(w.fates, names, issued, |names|);
      if name !in issued {
        LaterFate(w.fates, 0, 0);
        assert Later(w.fates, 0) == w.fates;
        CompensateExactly(w, current, rest, issued, stranded);
        assert [] + Failing(later, rest, issued, |rest|) == Failing(later, rest, issued, |rest|);
      } else {
        SetEnds(w, current, name, issued[name]);
        var o := SetSecret(w, current, name, issued[name]);
        if o.Done? {
          CompensateExactly(o.world, current, rest, issued, stranded);
          assert [] + Failing(later, rest, issued, |rest|) == Failing(later, rest, issued, |rest|);
        } else if o.Threw? {
          CompensateExactly(o.world, current, rest, issued, stranded + [name]);
          Associate(stranded, [name], Failing(later, rest, issued, |rest|));
        }
      }
    }
  }

  lemma {:induction false} FailingMembers(fates: seq<Fate>, names: seq<SecretKey>, issued: Plaintexts, n: nat)
    requires n <= |names|
    ensures forall name ::
      name in Failing(fates, names, issued, n)
      <==> exists k :: 0 <= k < n && names[k] == name && BackRaises(fates, names, issued, k)
  {
    if n > 0 {
      FailingMembers(fates, names, issued, n - 1);
    }
  }

  /** Without faults exactly the issued secrets that are empty cannot be written back. */
  lemma {:induction false} OnlyEmptyOnesFail(w: World, current: Service, names: seq<SecretKey>, issued: Plaintexts)
    requires w.fates == []
    ensures var o := Compensate(w, current, names, issued, []);
      o.Done? && forall name :: name in o.value <==> name in names && name in issued && issued[name] == ""
  {
    CompensateExactly(w, current, names, issued, []);
    FailingMembers([], names, issued, |names|);
    assert [] + Failing([], names, issued, |names|) == Failing([], names, issued, |names|);
  }

  // ---------------------------------------------------------------- the exits

  /** Phase 1 comes back with every stored secret. */
  predicate Reads(w: World, names: seq<SecretKey>, keys: Keys, mode: RotationMode) {
    var version := CurrentKeyVersion(w, names, MASTER_KEY_VERSION);
    && version.Done?
    && var o := Reading(w, names, keys, mode);
       o.Done? && o.value.Some?
  }

  function Reading(w: World, names: seq<SecretKey>, keys: Keys, mode: RotationMode): Outcome<Option<RevealedStore>> {
    var (w1, version) :- CurrentKeyVersion(w, names, MASTER_KEY_VERSION);
    RevealAll(w1, Service(keys.oldKey, version), Service(keys.newKey, version), mode, names, RevealedStore([], map[]))
  }

  /** The write loop of a rotation that read everything. */
  function Writing(w: World, names: seq<SecretKey>, keys: Keys, mode: RotationMode): WriteLoop
    requires Reads(w, names, keys, mode)
  {
    var version, o := CurrentKeyVersion(w, names, MASTER_KEY_VERSION).value, Reading(w, names, keys, mode);
    WriteAll(o.world, Service(keys.newKey, version), o.value.value.plaintexts, o.value.value.sealedUnderNewKey)
  }

  /** The rotation wrote, and a write raised. */
  predicate Fails(w: World, names: seq<SecretKey>, keys: Keys, mode: RotationMode) {
    Reads(w, names, keys, mode) && Writing(w, names, keys, mode).outcome.Threw?
  }

  /**
   * How a rotation ends. It aborts exactly if phase 1 comes back without a store, and succeeds exactly if
   * every write is acknowledged. After a write that raised it is rolled back exactly if no write-back
   * raises, and incomplete exactly if one does, unless the process dies in one; what it then reports
   * is every name whose write-back raised, in storage order.
   */
  lemma {:induction false} RotationEndsExactly(w: World, names: seq<SecretKey>, keys: Keys, mode: RotationMode)
    ensures var o := Rotate(w, names, keys, mode);
      && (o.Done? && o.value.exit == Aborted
          <==> Reading(w, names, keys, mode).Done? && Reading(w, names, keys, mode).value.None?)
      && (o.Done? && o.value.exit == Success
          <==> Reads(w, names, keys, mode) && Writing(w, names, keys, mode).outcome.Done?)
      && (o.Done? && o.value.exit == RolledBack
          <==> Fails(w, names, keys, mode)
               && var l := Writing(w, names, keys, mode);
                  forall k :: 0 <= k < |names| ==>
                    !BackRaises(l.outcome.world.fates, names, l.sealedUnderNewKey, k)
                    && !BackKills(l.outcome.world.fates, names, l.sealedUnderNewKey, k))
      && (o.Done? && o.value.exit == CompensationIncomplete
          <==> Fails(w, names, keys, mode)
               && var l := Writing(w, names, keys, mode);
                  && NoneKills(l.outcome.world.fates, names, l.sealedUnderNewKey)
                  && exists k :: 0 <= k < |names| && BackRaises(l.outcome.world.fates, names, l.sealedUnderNewKey, k))
      && (o.Done? && Fails(w, names, keys, mode) ==>
            var l := Writing(w, names, keys, mode);
            o.value.strandedKeys == Failing(l.outcome.world.fates, names, l.sealedUnderNewKey, |names|))
  {
    if Fails(w, names, keys, mode) {
      var version := CurrentKeyVersion(w, names, MASTER_KEY_VERSION).value;
      var l := Writing(w, names, keys, mode);
      var fates, issued := l.outcome.world.fates, l.sealedUnderNewKey;
      CompensateExactly(l.outcome.world, Service(keys.oldKey, version), names, issued, []);
      CompensateNeverThrows(l.outcome.world, Service(keys.oldKey, version), names, issued, []);
      assert [] + Failing(fates, names, issued, |names|) == Failing(fates, names, issued, |names|);
      FailingMembers(fates, names, issued, |names|);
      NoneFails(fates, names, issued);
    }
  }

  lemma {:induction false} NoneFails(fates: seq<Fate>, names: seq<SecretKey>, issued: Plaintexts)
    ensures Failing(fates, names, issued, |names|) == []
        <==> forall k :: 0 <= k < |names| ==> !BackRaises(fates, names, issued, k)
  {
    FailingMembers(fates, names, issued, |names|);
    var all := Failing(fates, names, issued, |names|);
    if all != [] {
      assert all[0] in all;
    }
    forall k | 0 <= k < |names| && BackRaises(fates, names, issued, k)
      ensures all != []
    {
      assert names[k] in all;
    }
  }

  // ---------------------------------------------------------------- one failed write

  /** So many calls that are answered. */
  function Quiet(n: nat): seq<Fate> {
    seq(n, _ => Answered)
  }

  lemma QuietLater(n: nat, rest: seq<Fate>, m: nat)
    requires m <= n
    ensures Later(Quiet(n) + rest, m) == Quiet(n - m) + rest
    ensures m < n ==> FateAt(Quiet(n) + rest, m).Answered?
    ensures FateAt(Quiet(n) + rest, n) == FateAt(rest, 0)
  {
  }

  lemma {:induction false} VersionInQuiet(w: World, names: seq<SecretKey>, max: int, n: nat, rest: seq<Fate>)
    requires w.fates == Quiet(n) + rest && |names| <= n
    ensures CurrentKeyVersion(w, names, max)
         == Done(World(w.rows, Quiet(n - |names|) + rest), HighestVersion(w.rows, names, max))
    decreases names
  {
    if names != [] {
      QuietLater(n, rest, 1);
      var found := if names[0] in w.rows then Some(w.rows[names[0]]) else None;
      assert Get(w, names[0]) == Done(World(w.rows, Quiet(n - 1) + rest), found);
      VersionInQuiet(World(w.rows, Quiet(n - 1) + rest), names[1..],
                     if found.Some? && max < found.value.version then found.value.version else max, n - 1, rest);
    }
  }

  lemma {:induction false} RevealInQuiet(w: World, current: Service, replacement: Service, mode: RotationMode,
                                         names: seq<SecretKey>, acc: RevealedStore, n: nat, rest: seq<Fate>)
    requires w.fates == Quiet(n) + rest && |names| <= n
    requires AllUnder(w.rows, current)
    ensures RevealAll(w, current, replacement, mode, names, acc)
         == Done(World(w.rows, Quiet(n - |names|) + rest),
                 Some(RevealedStore(acc.plaintexts + Stored(w.rows, names), acc.sealedUnderNewKey)))
    decreases names
  {
    if names == [] {
      assert acc.plaintexts + [] == acc.plaintexts;
    } else {
      QuietLater(n, rest, 1);
      var name, w' := names[0], World(w.rows, Quiet(n - 1) + rest);
      var p := if name in w.rows then Some(w.rows[name].plaintext) else None;
      assert OpenSecret(w, current, replacement, name, mode) == Done(w', Some(OpenedSecret(p, false)));
      RevealInQuiet(w', current, replacement, mode, names[1..], Record(acc, name, OpenedSecret(p, false)), n - 1, rest);
      Associate(acc.plaintexts, if name in w.rows then [(name, w.rows[name].plaintext)] else [], Stored(w.rows, names[1..]));
      assert acc.plaintexts + [] == acc.plaintexts;
    }
  }

  /** With no fault left nothing kills, and only an empty secret fails to be written back. */
  lemma {:induction false} NothingFails(names: seq<SecretKey>, issued: Plaintexts)
    requires forall name :: name in issued ==> issued[name] != ""
    ensures forall k :: 0 <= k < |names| ==> !BackRaises([], names, issued, k) && !BackKills([], names, issued, k)
  {
  }

  /** A store wholly under the old key is read without a hitch. */
  lemma {:induction false} ReadingInQuiet(rows: Rows, names: seq<SecretKey>, keys: Keys, mode: RotationMode, n: nat,
                                          rest: seq<Fate>)
    requires AllUnder(rows, Service(keys.oldKey, HighestVersion(rows, names, MASTER_KEY_VERSION)))
    ensures var w, version := World(rows, Quiet(2 * |names| + n) + rest), HighestVersion(rows, names, MASTER_KEY_VERSION);
      && CurrentKeyVersion(w, names, MASTER_KEY_VERSION) == Done(World(rows, Quiet(|names| + n) + rest), version)
      && Reading(w, names, keys, mode)
         == Done(World(rows, Quiet(n) + rest), Some(RevealedStore(Stored(rows, names), map[])))
  {
    var version, nothing := HighestVersion(rows, names, MASTER_KEY_VERSION), RevealedStore([], map[]);
    VersionInQuiet(World(rows, Quiet(2 * |names| + n) + rest), names, MASTER_KEY_VERSION, 2 * |names| + n, rest);
    RevealInQuiet(World(rows, Quiet(|names| + n) + rest), Service(keys.oldKey, version), Service(keys.newKey, version),
                  mode, names, nothing, |names| + n, rest);
    assert nothing.plaintexts + Stored(rows, names) == Stored(rows, names);
  }

  lemma {:induction false} StoredAreRows(rows: Rows, names: seq<SecretKey>)
    requires forall i, j :: 0 <= i < j < |names| ==> names[i] != names[j]
    requires forall name :: name in rows ==> name in names
    requires forall name :: name in rows ==> rows[name].plaintext != ""
    ensures |Stored(rows, names)| == |rows| && forall item :: item in Stored(rows, names) ==> item.1 != ""
  {
    StoredMembers(rows, names);
    StoredCount(rows, names);
    assert (set name | name in names && name in rows) == rows.Keys;
  }

  /** A write loop whose one failure is followed by no other is followed by a rollback in which nothing fails. */
  lemma {:induction false} RollsBackClean(w: World, replacement: Service, names: seq<SecretKey>,
                                          todo: seq<(SecretKey, string)>, j: nat, failure: Fate)
    requires w.fates == Quiet(j) + [failure] && j < |todo| && Rejecting(failure)
    requires forall item :: item in todo ==> item.1 != ""
    ensures var l := WriteAll(w, replacement, todo, map[]);
      && l.outcome.Threw?
      && forall k :: 0 <= k < |names| ==>
           && !BackRaises(l.outcome.world.fates, names, l.sealedUnderNewKey, k)
           && !BackKills(l.outcome.world.fates, names, l.sealedUnderNewKey, k)
  {
    var stop := WriteLoopStops(w, replacement, todo, map[]);
    StopsThere(todo, j, failure, stop);
    assert todo[j] in todo;
    IssuedAreNotEmpty(w, replacement, todo, map[]);
    NothingFails(names, WriteAll(w, replacement, todo, map[]).sealedUnderNewKey);
  }

  /**
   * One write that is rejected, whether or not it was committed, leaves a clean rollback: of a store that is
   * wholly under the old key and holds no empty secret, any number of secrets is written first, that one
   * raises, every write-back is answered, and nothing is stranded.
   */
  lemma {:induction false} OneFailedWrite(rows: Rows, names: seq<SecretKey>, keys: Keys, mode: RotationMode, j: nat,
                                          failure: Fate)
    requires Configured(rows, names, keys) && j < |rows| && Rejecting(failure)
    requires AllUnder(rows, Service(keys.oldKey, HighestVersion(rows, names, MASTER_KEY_VERSION)))
    requires forall name :: name in rows ==> rows[name].plaintext != ""
    ensures var version := HighestVersion(rows, names, MASTER_KEY_VERSION);
      var o := Rotate(World(rows, Quiet(2 * |names| + j) + [failure]), names, keys, mode);
      && o.Done? && o.value == RotateResult(0, version, RolledBack, [])
      && AllUnder(o.world.rows, Service(keys.oldKey, version)) && Preserved(rows, o.world.rows, keys)
  {
    var w, version := World(rows, Quiet(2 * |names| + j) + [failure]), HighestVersion(rows, names, MASTER_KEY_VERSION);
    ReadingInQuiet(rows, names, keys, mode, j, [failure]);
    assert Reads(w, names, keys, mode);
    StoredAreRows(rows, names);
    RollsBackClean(World(rows, Quiet(j) + [failure]), Service(keys.newKey, version), names, Stored(rows, names), j, failure);
    RotationEndsExactly(w, names, keys, mode);
    RotationKeepsEverySecret(w, names, keys, mode);
    VersionStamped(w, names, keys, mode);
  }

  /** A rotation reports the version it read. */
  lemma {:induction false} VersionStamped(w: World, names: seq<SecretKey>, keys: Keys, mode: RotationMode)
    ensures var o := Rotate(w, names, keys, mode);
      o.Done? ==> o.value.keyVersion == HighestVersion(w.rows, names, MASTER_KEY_VERSION)
  {
    VersionRead(w, names, MASTER_KEY_VERSION);
  }

  lemma StopsThere(todo: seq<(SecretKey, string)>, j: nat, failure: Fate, stop: nat)
    requires j < |todo| && Rejecting(failure) && StopsAt(Quiet(j) + [failure], todo, stop)
    requires forall item :: item in todo ==> item.1 != ""
    ensures stop == j && FateAt(Quiet(j) + [failure], j) == failure && Later(Quiet(j) + [failure], j + 1) == []
  {
    QuietLater(j, [failure], 0);
    assert forall i :: 0 <= i < |todo| ==> todo[i] in todo;
    if stop < j {
      QuietLater(j, [failure], stop);
    }
  }

  /** The write loop issues what it is given. */
  lemma {:induction false} IssuedAreNotEmpty(w: World, replacement: Service, todo: seq<(SecretKey, string)>,
                                             issued: Plaintexts)
    requires forall item :: item in todo ==> item.1 != ""
    requires forall name :: name in issued ==> issued[name] != ""
    ensures var all := WriteAll(w, replacement, todo, issued).sealedUnderNewKey;
      forall name :: name in all ==> all[name] != ""
    decreases todo
  {
    if todo != [] {
      assert todo[0] in todo && forall item :: item in todo[1..] ==> item in todo;
      var o, issued' := SetSecret(w, replacement, todo[0].0, todo[0].1), issued[todo[0].0 := todo[0].1];
      if o.Done? {
        IssuedAreNotEmpty(o.world, replacement, todo[1..], issued');
        assert WriteAll(w, replacement, todo, issued) == WriteAll(o.world, replacement, todo[1..], issued');
      } else {
        assert WriteAll(w, replacement, todo, issued).sealedUnderNewKey == issued';
      }
    }
  }
}

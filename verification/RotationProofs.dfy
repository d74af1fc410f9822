/**
 * What a rotation keeps and what its outcomes mean, for every pattern of faults.
 *
 * Every statement takes the fates of all repository calls as given by an adversary: any call may
 * fail, may commit and still report failure, and the process may die before or after any of them.
 */
module RotationProofs {
  import opened Common
  import opened SecretStore
  import opened KeyRotation

  /** The secret names are distinct, every stored row has one of them, and the two keys differ. */
  ghost predicate Configured(rows: Rows, names: seq<SecretKey>, keys: Keys) {
    && (forall i, j :: 0 <= i < j < |names| ==> names[i] != names[j])
    && (forall name :: name in rows ==> name in names)
    && keys.oldKey != keys.newKey
  }

  /** The two envelopes hold the same secret of the same row at the same version, each under one of the two keys. */
  ghost predicate Resealed(name: SecretKey, before: Envelope, after: Envelope, keys: Keys) {
    && before.boundTo == after.boundTo == name
    && before.plaintext == after.plaintext
    && before.version == after.version
    && (before.sealedUnder == keys.oldKey || before.sealedUnder == keys.newKey)
    && (after.sealedUnder == keys.oldKey || after.sealedUnder == keys.newKey)
  }

  /** No row appeared or disappeared, and each is untouched or the same secret under one of the two keys. */
  ghost predicate Preserved(before: Rows, after: Rows, keys: Keys) {
    && before.Keys == after.Keys
    && forall name :: name in before ==>
         after[name] == before[name] || Resealed(name, before[name], after[name], keys)
  }

  // ---------------------------------------------------------------- phase 1

  ghost predicate Allowed(name: SecretKey, e: Envelope, current: Service, replacement: Service, mode: RotationMode) {
    Opens(name, e, current) || (mode == Salvage && Opens(name, e, replacement))
  }

  /** The stored secrets among `names`, in that order. */
  ghost function Stored(rows: Rows, names: seq<SecretKey>): seq<(SecretKey, string)> {
    if names == [] then []
    else if names[0] in rows then [(names[0], rows[names[0]].plaintext)] + Stored(rows, names[1..])
    else Stored(rows, names[1..])
  }

  lemma {:induction false} StoredMembers(rows: Rows, names: seq<SecretKey>)
    ensures forall name, p :: (name, p) in Stored(rows, names) <==> name in names && name in rows && rows[name].plaintext == p
  {
    if names != [] {
      StoredMembers(rows, names[1..]);
      assert names == [names[0]] + names[1..];
    }
  }

  /** Stored lists every row once, so its length is the number of rows. */
  lemma {:induction false} StoredCount(rows: Rows, names: seq<SecretKey>)
    requires forall i, j :: 0 <= i < j < |names| ==> names[i] != names[j]
    ensures |Stored(rows, names)| == |set name | name in names && name in rows|
  {
    if names != [] {
      var rest := names[1..];
      StoredCount(rows, rest);
      var here := set name | name in names && name in rows;
      var there := set name | name in rest && name in rows;
      assert names == [names[0]] + rest;
      assert names[0] !in rest;
      if names[0] in rows {
        assert here == there + {names[0]};
      } else {
        assert here == there;
      }
    }
  }

  lemma OneReading(w: World, current: Service, replacement: Service, name: SecretKey, mode: RotationMode, acc: RevealedStore)
    ensures var o := OpenSecret(w, current, replacement, name, mode);
      && o.world.rows == w.rows
      && (o.Done? && o.value.Some? ==>
            && (name in w.rows ==> Allowed(name, w.rows[name], current, replacement, mode))
            && Record(acc, name, o.value.value).plaintexts
               == acc.plaintexts + if name in w.rows then [(name, w.rows[name].plaintext)] else [])
  {
  }

  /** Phase 1 writes nothing, and when it succeeds it holds every stored secret. */
  lemma {:induction false} RevealAllHolds(w: World, current: Service, replacement: Service, mode: RotationMode,
                                          names: seq<SecretKey>, acc: RevealedStore)
    ensures var o := RevealAll(w, current, replacement, mode, names, acc);
      && o.world.rows == w.rows
      && (o.Done? && o.value.Some? ==>
            && o.value.value.plaintexts == acc.plaintexts + Stored(w.rows, names)
            && forall name :: name in names && name in w.rows ==> Allowed(name, w.rows[name], current, replacement, mode))
    decreases names
  {
    if names != [] {
      var o := OpenSecret(w, current, replacement, names[0], mode);
      OneReading(w, current, replacement, names[0], mode, acc);
      if o.Done? && o.value.Some? {
        RevealAllHolds(o.world, current, replacement, mode, names[1..], Record(acc, names[0], o.value.value));
        Associate(acc.plaintexts, if names[0] in w.rows then [(names[0], w.rows[names[0]].plaintext)] else [],
                  Stored(w.rows, names[1..]));
      }
    }
  }

  /** What has been taken with the replacement key: part of what is stored, under that key. */
  ghost predicate TakenUnder(acc: RevealedStore, rows: Rows) {
    forall name :: name in acc.sealedUnderNewKey ==> name in rows && acc.sealedUnderNewKey[name] == rows[name].plaintext
  }

  lemma OneTaken(w: World, current: Service, replacement: Service, name: SecretKey, mode: RotationMode, acc: RevealedStore)
    requires current.key != replacement.key && current.version == replacement.version && TakenUnder(acc, w.rows)
    ensures var o := OpenSecret(w, current, replacement, name, mode);
      o.Done? && o.value.Some? ==>
        var next := Record(acc, name, o.value.value);
        && TakenUnder(next, w.rows)
        && forall n :: n in next.sealedUnderNewKey <==>
             n in acc.sealedUnderNewKey || (n == name && n in w.rows && w.rows[n].sealedUnder == replacement.key)
  {
  }

  /** When phase 1 succeeds it knows exactly which secrets are already under the new key. */
  lemma {:induction false} RevealAllTakes(w: World, current: Service, replacement: Service, mode: RotationMode,
                                          names: seq<SecretKey>, acc: RevealedStore)
    requires current.key != replacement.key && current.version == replacement.version && TakenUnder(acc, w.rows)
    ensures var o := RevealAll(w, current, replacement, mode, names, acc);
      o.Done? && o.value.Some? ==>
        && TakenUnder(o.value.value, w.rows)
        && forall name :: name in o.value.value.sealedUnderNewKey <==>
             name in acc.sealedUnderNewKey
             || (name in names && name in w.rows && w.rows[name].sealedUnder == replacement.key)
    decreases names
  {
    if names != [] {
      var o := OpenSecret(w, current, replacement, names[0], mode);
      OneReading(w, current, replacement, names[0], mode, acc);
      OneTaken(w, current, replacement, names[0], mode, acc);
      if o.Done? && o.value.Some? {
        RevealAllTakes(o.world, current, replacement, mode, names[1..], Record(acc, names[0], o.value.value));
        assert forall name :: name in names <==> name == names[0] || name in names[1..];
      }
    }
  }

  /** Phase 1 writes nothing; when it succeeds it holds every stored secret and knows which are already moved. */
  lemma {:induction false} RevealAllReads(w: World, current: Service, replacement: Service, mode: RotationMode,
                       names: seq<SecretKey>, acc: RevealedStore)
    requires current.key != replacement.key && current.version == replacement.version
    requires TakenUnder(acc, w.rows)
    ensures var o := RevealAll(w, current, replacement, mode, names, acc);
      && o.world.rows == w.rows
      && (o.Done? && o.value.Some? ==>
          var r := o.value.value;
          && r.plaintexts == acc.plaintexts + Stored(w.rows, names)
          && (forall name :: name in names && name in w.rows ==>
                Allowed(name, w.rows[name], current, replacement, mode))
          && (forall name :: name in r.sealedUnderNewKey <==>
                name in acc.sealedUnderNewKey
                || (name in names && name in w.rows && w.rows[name].sealedUnder == replacement.key))
          && TakenUnder(r, w.rows))
  {
    RevealAllHolds(w, current, replacement, mode, names, acc);
    RevealAllTakes(w, current, replacement, mode, names, acc);
  }

  /** Without faults phase 1 always finishes, and it succeeds exactly when every stored row may be opened. */
  lemma {:induction false} RevealAllExactly(w: World, current: Service, replacement: Service, mode: RotationMode,
                                            names: seq<SecretKey>, acc: RevealedStore)
    requires w.fates == []
    ensures var o := RevealAll(w, current, replacement, mode, names, acc);
      && o.Done? && o.world == w
      && (o.value.Some? <==> forall name :: name in names && name in w.rows ==>
                               Allowed(name, w.rows[name], current, replacement, mode))
    decreases names
  {
    if names != [] {
      assert names == [names[0]] + names[1..];
      var o := OpenSecret(w, current, replacement, names[0], mode);
      if o.value.Some? {
        RevealAllExactly(o.world, current, replacement, mode, names[1..], Record(acc, names[0], o.value.value));
      }
    }
  }

  /** The version a rotation stamps: the highest stored one, never below the default. */
  ghost function HighestVersion(rows: Rows, names: seq<SecretKey>, max: int): int {
    if names == [] then max
    else HighestVersion(rows, names[1..],
                        if names[0] in rows && max < rows[names[0]].version then rows[names[0]].version else max)
  }

  lemma {:induction false} HighestVersionIsLeastBound(rows: Rows, names: seq<SecretKey>, max: int)
    ensures var v := HighestVersion(rows, names, max);
      && max <= v
      && (forall name :: name in names && name in rows ==> rows[name].version <= v)
      && (v == max || exists name :: name in names && name in rows && rows[name].version == v)
    decreases names
  {
    if names != [] {
      assert names == [names[0]] + names[1..];
      HighestVersionIsLeastBound(rows, names[1..],
        if names[0] in rows && max < rows[names[0]].version then rows[names[0]].version else max);
    }
  }

  lemma {:induction false} VersionRead(w: World, names: seq<SecretKey>, max: int)
    ensures var o := CurrentKeyVersion(w, names, max);
      && o.world.rows == w.rows
      && (o.Done? ==> o.value == HighestVersion(w.rows, names, max))
      && (w.fates == [] ==> o.Done? && o.world == w)
    decreases names
  {
    if names != [] {
      var o := Get(w, names[0]);
      if o.Done? {
        var found := o.value;
        VersionRead(o.world, names[1..], if found.Some? && max < found.value.version then found.value.version else max);
      }
    }
  }

  lemma {:induction false} SameVersionsSameHighest(before: Rows, after: Rows, names: seq<SecretKey>, max: int)
    requires before.Keys == after.Keys
    requires forall name :: name in before ==> before[name].version == after[name].version
    ensures HighestVersion(before, names, max) == HighestVersion(after, names, max)
    decreases names
  {
    if names != [] {
      SameVersionsSameHighest(before, after, names[1..],
        if names[0] in before && max < before[names[0]].version then before[names[0]].version else max);
    }
  }

  // ---------------------------------------------------------------- phase 2

  /**
   * The invariant of the write and rollback loops: every row opens under one of the two keys to the
   * plaintext phase 1 read, and a row that is under the new key is among the issued writes.
   */
  ghost predicate Tracked(rows: Rows, current: Service, replacement: Service, plain: Plaintexts, issued: Plaintexts) {
    && rows.Keys == plain.Keys
    && (forall name :: name in rows ==>
          && rows[name].plaintext == plain[name]
          && (Opens(name, rows[name], current) || Opens(name, rows[name], replacement)))
    && (forall name :: name in issued ==> name in plain && issued[name] == plain[name])
    && (forall name :: name in rows && rows[name].sealedUnder == replacement.key ==> name in issued)
  }

  /** One issued write, under either key and with any fate, keeps the invariant and touches its own row only. */
  lemma SetTracks(w: World, current: Service, replacement: Service, service: Service, name: SecretKey,
                  plain: Plaintexts, issued: Plaintexts)
    requires current.version == replacement.version && current.key != replacement.key
    requires service == current || service == replacement
    requires Tracked(w.rows, current, replacement, plain, issued)
    requires name in issued
    ensures var o := SetSecret(w, service, name, issued[name]);
      && Tracked(o.world.rows, current, replacement, plain, issued)
      && (forall other :: other in w.rows && other != name ==> o.world.rows[other] == w.rows[other])
      && (o.Done? ==> issued[name] != "" && Opens(name, o.world.rows[name], service))
  {
    var o := SetSecret(w, service, name, issued[name]);
    assert o.world.rows == w.rows
        || o.world.rows == w.rows[name := Envelope(name, service.key, plain[name], service.version)];
  }

  /** The write loop keeps the invariant at whatever point it stops. */
  lemma {:induction false} WriteAllTracks(w: World, current: Service, replacement: Service,
                                          todo: seq<(SecretKey, string)>, plain: Plaintexts, issued: Plaintexts)
    requires current.version == replacement.version && current.key != replacement.key
    requires Tracked(w.rows, current, replacement, plain, issued)
    requires forall i :: 0 <= i < |todo| ==> todo[i].0 in plain && plain[todo[i].0] == todo[i].1
    ensures var l := WriteAll(w, replacement, todo, issued);
      Tracked(l.outcome.world.rows, current, replacement, plain, l.sealedUnderNewKey)
    decreases todo
  {
    if todo != [] {
      var name, p := todo[0].0, todo[0].1;
      var issued' := issued[name := p];
      assert Tracked(w.rows, current, replacement, plain, issued');
      SetTracks(w, current, replacement, replacement, name, plain, issued');
      var o := SetSecret(w, replacement, name, p);
      if o.Done? {
        WriteAllTracks(o.world, current, replacement, todo[1..], plain, issued');
      }
    }
  }

  /** If the write loop finishes, everything it was given has moved and nothing has moved back. */
  lemma {:induction false} WriteAllMoves(w: World, replacement: Service, todo: seq<(SecretKey, string)>, issued: Plaintexts)
    ensures var o := WriteAll(w, replacement, todo, issued).outcome;
      o.Done? ==>
        && (forall name :: name in w.rows ==> name in o.world.rows)
        && (forall name :: name in w.rows && w.rows[name].sealedUnder == replacement.key ==>
              o.world.rows[name].sealedUnder == replacement.key)
        && (forall i :: 0 <= i < |todo| ==>
              && todo[i].1 != "" && todo[i].0 in o.world.rows
              && o.world.rows[todo[i].0].sealedUnder == replacement.key)
    decreases todo
  {
    if todo != [] {
      var o := SetSecret(w, replacement, todo[0].0, todo[0].1);
      if o.Done? {
        WriteAllMoves(o.world, replacement, todo[1..], issued[todo[0].0 := todo[0].1]);
        var final := WriteAll(w, replacement, todo, issued).outcome;
        forall i | final.Done? && 0 <= i < |todo|
          ensures todo[i].1 != "" && todo[i].0 in final.world.rows
          ensures final.world.rows[todo[i].0].sealedUnder == replacement.key
        {
          if i > 0 {
            assert todo[i] == todo[1..][i - 1];
          }
        }
      }
    }
  }

  /** Without faults the write loop finishes exactly when it has no empty plaintext to store. */
  lemma {:induction false} WriteAllExactly(w: World, replacement: Service, todo: seq<(SecretKey, string)>, issued: Plaintexts)
    requires w.fates == []
    ensures var l := WriteAll(w, replacement, todo, issued);
      && l.outcome.world.fates == [] && !l.outcome.Crashed?
      && (l.outcome.Done? <==> forall item :: item in todo ==> item.1 != "")
    decreases todo
  {
    if todo != [] {
      assert todo == [todo[0]] + todo[1..];
      if todo[0].1 != "" {
        WriteAllExactly(SetSecret(w, replacement, todo[0].0, todo[0].1).world, replacement, todo[1..],
                        issued[todo[0].0 := todo[0].1]);
      } else {
        assert todo[0] in todo;
      }
    }
  }

  ghost predicate IsSubsequence(a: seq<SecretKey>, b: seq<SecretKey>) {
    a == [] || (b != [] && ((a[0] == b[0] && IsSubsequence(a[1..], b[1..])) || IsSubsequence(a, b[1..])))
  }

  /** Rollback keeps the invariant, and leaves the rows it is not given alone. */
  lemma {:induction false} CompensateTracks(w: World, current: Service, replacement: Service, names: seq<SecretKey>,
                                            plain: Plaintexts, issued: Plaintexts, stranded: seq<SecretKey>)
    requires current.version == replacement.version && current.key != replacement.key
    requires Tracked(w.rows, current, replacement, plain, issued)
    ensures var o := Compensate(w, current, names, issued, stranded);
      && Tracked(o.world.rows, current, replacement, plain, issued)
      && (forall name :: name in w.rows && name !in names ==> o.world.rows[name] == w.rows[name])
    decreases names
  {
    if names != [] {
      var name, rest := names[0], names[1..];
      assert name in names && forall other :: other in rest ==> other in names;
      if name !in issued {
        CompensateTracks(w, current, replacement, rest, plain, issued, stranded);
      } else {
        SetTracks(w, current, replacement, current, name, plain, issued);
        var o := SetSecret(w, current, name, issued[name]);
        if !o.Crashed? {
          CompensateTracks(o.world, current, replacement, rest, plain, issued,
                           if o.Done? then stranded else stranded + [name]);
        }
      }
    }
  }

  /** Rollback appends what it could not write back, in storage order and all of it issued. */
  lemma {:induction false} CompensateReports(w: World, current: Service, names: seq<SecretKey>,
                                             issued: Plaintexts, stranded: seq<SecretKey>)
    returns (missed: seq<SecretKey>)
    ensures var o := Compensate(w, current, names, issued, stranded);
      o.Done? ==> o.value == stranded + missed
    ensures IsSubsequence(missed, names)
    ensures forall name :: name in missed ==> name in issued
    decreases names
  {
    missed := [];
    if names != [] {
      if names[0] !in issued {
        missed := CompensateReports(w, current, names[1..], issued, stranded);
      } else {
        var o := SetSecret(w, current, names[0], issued[names[0]]);
        if o.Done? {
          missed := CompensateReports(o.world, current, names[1..], issued, stranded);
        } else if o.Threw? {
          var more := CompensateReports(o.world, current, names[1..], issued, stranded + [names[0]]);
          missed := [names[0]] + more;
          assert stranded + [names[0]] + more == stranded + missed;
          assert missed[1..] == more;
        }
      }
    }
  }

  /** Back under the old key, or reported as not. */
  ghost predicate Restored(name: SecretKey, rows: Rows, current: Service, stranded: seq<SecretKey>) {
    (name in rows && Opens(name, rows[name], current)) || name in stranded
  }

  /** A rollback that finishes has every issued secret back under the old key or among the stranded. */
  lemma {:induction false} CompensateRestores(w: World, current: Service, replacement: Service, names: seq<SecretKey>,
                                              plain: Plaintexts, issued: Plaintexts, stranded: seq<SecretKey>)
    requires current.version == replacement.version && current.key != replacement.key
    requires Tracked(w.rows, current, replacement, plain, issued)
    requires forall i, j :: 0 <= i < j < |names| ==> names[i] != names[j]
    ensures var o := Compensate(w, current, names, issued, stranded);
      o.Done? ==>
        && o.world.rows.Keys == w.rows.Keys
        && (forall name :: name in stranded ==> name in o.value)
        && (forall name :: name in names && name in issued ==> Restored(name, o.world.rows, current, o.value))
    decreases names
  {
    if names != [] {
      var name, rest := names[0], names[1..];
      assert names == [name] + rest && name !in rest;
      if name !in issued {
        CompensateRestores(w, current, replacement, rest, plain, issued, stranded);
      } else {
        SetTracks(w, current, replacement, current, name, plain, issued);
        var o := SetSecret(w, current, name, issued[name]);
        if !o.Crashed? {
          var stranded' := if o.Done? then stranded else stranded + [name];
          CompensateTracks(o.world, current, replacement, rest, plain, issued, stranded');
          CompensateRestores(o.world, current, replacement, rest, plain, issued, stranded');
          assert Restored(name, o.world.rows, current, stranded');
        }
      }
    }
  }

  // ---------------------------------------------------------------- the rotation

  ghost function PlainOf(rows: Rows): Plaintexts {
    map name | name in rows :: rows[name].plaintext
  }

  /** A reading of every stored secret satisfies the invariant of the write phase. */
  lemma {:induction false} TakenIsTracked(rows: Rows, current: Service, replacement: Service, mode: RotationMode,
                                          names: seq<SecretKey>, r: RevealedStore)
    requires Configured(rows, names, Keys(current.key, replacement.key))
    requires r.plaintexts == Stored(rows, names) && TakenUnder(r, rows)
    requires forall name :: name in names && name in rows ==> Allowed(name, rows[name], current, replacement, mode)
    requires forall name :: name in r.sealedUnderNewKey <==>
               name in names && name in rows && rows[name].sealedUnder == replacement.key
    ensures Tracked(rows, current, replacement, PlainOf(rows), r.sealedUnderNewKey)
    ensures (forall item :: item in r.plaintexts <==> item.0 in rows && rows[item.0].plaintext == item.1)
    ensures |r.plaintexts| == |rows|
  {
    StoredMembers(rows, names);
    StoredCount(rows, names);
    assert (set name | name in names && name in rows) == rows.Keys;
  }

  /** Between the phases: whatever phase 1 hands over starts phase 2 inside its invariant. */
  lemma {:induction false} RevealedIsTracked(w: World, current: Service, replacement: Service, mode: RotationMode,
                                             names: seq<SecretKey>)
    requires Configured(w.rows, names, Keys(current.key, replacement.key))
    requires current.version == replacement.version
    ensures var o := RevealAll(w, current, replacement, mode, names, RevealedStore([], map[]));
      && o.world.rows == w.rows
      && (o.Done? && o.value.Some? ==>
          var r := o.value.value;
          && Tracked(w.rows, current, replacement, PlainOf(w.rows), r.sealedUnderNewKey)
          && (forall item :: item in r.plaintexts <==> item.0 in w.rows && w.rows[item.0].plaintext == item.1)
          && |r.plaintexts| == |w.rows|)
  {
    RevealAllReads(w, current, replacement, mode, names, RevealedStore([], map[]));
    var o := RevealAll(w, current, replacement, mode, names, RevealedStore([], map[]));
    if o.Done? && o.value.Some? {
      assert [] + Stored(w.rows, names) == Stored(w.rows, names);
      TakenIsTracked(w.rows, current, replacement, mode, names, o.value.value);
    }
  }

  /** Rows that stay inside the write-phase invariant are the same secrets as before. */
  lemma TrackedIsPreserved(before: Rows, after: Rows, current: Service, replacement: Service,
                           first: Plaintexts, last: Plaintexts)
    requires current.version == replacement.version
    requires Tracked(before, current, replacement, PlainOf(before), first)
    requires Tracked(after, current, replacement, PlainOf(before), last)
    ensures Preserved(before, after, Keys(current.key, replacement.key))
  {
  }

  ghost predicate AllUnder(rows: Rows, service: Service) {
    forall name :: name in rows ==> Opens(name, rows[name], service)
  }

  /** What each outcome of a rotation promises about the rows it found and the rows it left. */
  ghost predicate OutcomeHolds(before: Rows, after: Rows, names: seq<SecretKey>, keys: Keys, r: RotateResult) {
    match r.exit
    case Success =>
      AllUnder(after, Service(keys.newKey, r.keyVersion)) && r.rotated == |after| && r.strandedKeys == []
    case Aborted => after == before && r.rotated == 0 && r.strandedKeys == []
    case RolledBack =>
      AllUnder(after, Service(keys.oldKey, r.keyVersion)) && r.rotated == 0 && r.strandedKeys == []
    case CompensationIncomplete =>
      && r.rotated == 0 && r.strandedKeys != [] && IsSubsequence(r.strandedKeys, names)
      && (forall name :: name in r.strandedKeys ==> name in after)
      && (forall name :: name in after && name !in r.strandedKeys ==>
            Opens(name, after[name], Service(keys.oldKey, r.keyVersion)))
  }

  /** A write loop that finishes has moved every row. */
  lemma {:induction false} WriteLoopCompletes(w: World, current: Service, replacement: Service, revealed: RevealedStore)
    requires current.version == replacement.version && current.key != replacement.key
    requires Tracked(w.rows, current, replacement, PlainOf(w.rows), revealed.sealedUnderNewKey)
    requires forall item :: item in revealed.plaintexts <==> item.0 in w.rows && w.rows[item.0].plaintext == item.1
    ensures var l := WriteAll(w, replacement, revealed.plaintexts, revealed.sealedUnderNewKey);
      && Tracked(l.outcome.world.rows, current, replacement, PlainOf(w.rows), l.sealedUnderNewKey)
      && (l.outcome.Done? ==>
          && AllUnder(l.outcome.world.rows, replacement) && |l.outcome.world.rows| == |w.rows|
          && forall name :: name in w.rows ==> w.rows[name].plaintext != "")
  {
    var plain, todo, already := PlainOf(w.rows), revealed.plaintexts, revealed.sealedUnderNewKey;
    assert forall i :: 0 <= i < |todo| ==> todo[i] in todo;
    WriteAllTracks(w, current, replacement, todo, plain, already);
    WriteAllMoves(w, replacement, todo, already);
    var o := WriteAll(w, replacement, todo, already).outcome;
    if o.Done? {
      assert |o.world.rows| == |o.world.rows.Keys| == |w.rows.Keys|;
      forall name | name in w.rows
        ensures Opens(name, o.world.rows[name], replacement) && w.rows[name].plaintext != ""
      {
        assert (name, plain[name]) in todo;
      }
    }
  }

  /** A rollback that finishes either restored every row or names the ones it could not. */
  lemma {:induction false} RollbackCompletes(w: World, current: Service, replacement: Service, names: seq<SecretKey>,
                          plain: Plaintexts, issued: Plaintexts)
    requires Configured(w.rows, names, Keys(current.key, replacement.key))
    requires current.version == replacement.version
    requires Tracked(w.rows, current, replacement, plain, issued)
    ensures var o := Compensate(w, current, names, issued, []);
      && Tracked(o.world.rows, current, replacement, plain, issued)
      && (o.Done? ==>
          && IsSubsequence(o.value, names)
          && (forall name :: name in o.value ==> name in o.world.rows)
          && (forall name :: name in o.world.rows && name !in o.value ==> Opens(name, o.world.rows[name], current)))
  {
    CompensateTracks(w, current, replacement, names, plain, issued, []);
    CompensateRestores(w, current, replacement, names, plain, issued, []);
    var missed := CompensateReports(w, current, names, issued, []);
    var o := Compensate(w, current, names, issued, []);
    if o.Done? {
      assert o.value == missed;
      forall name | name in o.world.rows && name !in o.value
        ensures Opens(name, o.world.rows[name], current)
      {
        assert name in names;
      }
    }
  }

  /** A rollback that returns reports what its outcome promises. */
  lemma {:induction false} RollbackHolds(before: Rows, w: World, current: Service, replacement: Service, names: seq<SecretKey>,
                      already: Plaintexts, issued: Plaintexts)
    requires Configured(w.rows, names, Keys(current.key, replacement.key))
    requires current.version == replacement.version
    requires Tracked(before, current, replacement, PlainOf(before), already)
    requires Tracked(w.rows, current, replacement, PlainOf(before), issued)
    ensures var o := Compensate(w, current, names, issued, []);
      && Preserved(before, o.world.rows, Keys(current.key, replacement.key))
      && (o.Done? ==>
            OutcomeHolds(before, o.world.rows, names, Keys(current.key, replacement.key),
                         RotateResult(0, current.version, if |o.value| > 0 then CompensationIncomplete else RolledBack, o.value)))
  {
    RollbackCompletes(w, current, replacement, names, PlainOf(before), issued);
    var o := Compensate(w, current, names, issued, []);
    TrackedIsPreserved(before, o.world.rows, current, replacement, already, issued);
  }

  /** Phase 2 from a store phase 1 read completely. */
  lemma WritePhase(w: World, current: Service, replacement: Service, names: seq<SecretKey>, revealed: RevealedStore)
    requires Configured(w.rows, names, Keys(current.key, replacement.key))
    requires current.version == replacement.version
    requires Tracked(w.rows, current, replacement, PlainOf(w.rows), revealed.sealedUnderNewKey)
    requires forall item :: item in revealed.plaintexts <==> item.0 in w.rows && w.rows[item.0].plaintext == item.1
    requires |revealed.plaintexts| == |w.rows|
    ensures var o := WriteUnderNewKey(w, current, replacement, names, revealed);
      && Preserved(w.rows, o.world.rows, Keys(current.key, replacement.key))
      && (o.Done? ==> OutcomeHolds(w.rows, o.world.rows, names, Keys(current.key, replacement.key), o.value))
      && (o.Done? && o.value.exit == Success ==> forall name :: name in w.rows ==> w.rows[name].plaintext != "")
  {
    var already := revealed.sealedUnderNewKey;
    WriteLoopCompletes(w, current, replacement, revealed);
    var loop := WriteAll(w, replacement, revealed.plaintexts, already);
    var middle := loop.outcome.world;
    TrackedIsPreserved(w.rows, middle.rows, current, replacement, already, loop.sealedUnderNewKey);
    if loop.outcome.Threw? {
      RollbackHolds(w.rows, middle, current, replacement, names, already, loop.sealedUnderNewKey);
    }
  }

  /**
   * The rotation invariant and the meaning of its outcomes. Whatever happens to each call, and
   * wherever the process dies, no row appears or disappears and each row is untouched or the same
   * secret under one of the two keys.
   */
  lemma RotationKeepsEverySecret(w: World, names: seq<SecretKey>, keys: Keys, mode: RotationMode)
    requires Configured(w.rows, names, keys)
    ensures var o := Rotate(w, names, keys, mode);
      && Preserved(w.rows, o.world.rows, keys)
      && (o.Done? ==> OutcomeHolds(w.rows, o.world.rows, names, keys, o.value))
      && (o.Threw? ==> o.world.rows == w.rows)
  {
    VersionRead(w, names, MASTER_KEY_VERSION);
    var read := CurrentKeyVersion(w, names, MASTER_KEY_VERSION);
    if read.Done? {
      var current, replacement := Service(keys.oldKey, read.value), Service(keys.newKey, read.value);
      RevealedIsTracked(read.world, current, replacement, mode, names);
      var o := RevealAll(read.world, current, replacement, mode, names, RevealedStore([], map[]));
      if o.Done? && o.value.Some? {
        WritePhase(o.world, current, replacement, names, o.value.value);
        var loop := WriteAll(o.world, replacement, o.value.value.plaintexts, o.value.value.sealedUnderNewKey);
        CompensateNeverThrows(loop.outcome.world, current, names, loop.sealedUnderNewKey, []);
      }
    }
  }

  /** Rollback swallows every failure of its own writes. */
  lemma {:induction false} CompensateNeverThrows(w: World, current: Service, names: seq<SecretKey>, issued: Plaintexts,
                                                 stranded: seq<SecretKey>)
    ensures !Compensate(w, current, names, issued, stranded).Threw?
    decreases names
  {
    if names != [] {
      if names[0] !in issued {
        CompensateNeverThrows(w, current, names[1..], issued, stranded);
      } else {
        var o := SetSecret(w, current, names[0], issued[names[0]]);
        CompensateNeverThrows(o.world, current, names[1..], issued, if o.Done? then stranded else stranded + [names[0]]);
      }
    }
  }

  /** A store either key can take over: every row at the highest version, under one of the two keys, not empty. */
  ghost predicate Recoverable(rows: Rows, names: seq<SecretKey>, keys: Keys) {
    var version := HighestVersion(rows, names, MASTER_KEY_VERSION);
    forall name :: name in rows ==>
      && (Opens(name, rows[name], Service(keys.oldKey, version)) || Opens(name, rows[name], Service(keys.newKey, version)))
      && rows[name].plaintext != ""
  }

  /**
   * Which stores a rotation without faults completes on: in salvage mode exactly the recoverable
   * ones, in strict mode exactly those that are also entirely under the old key.
   */
  lemma {:induction false} FaultFreeRotation(rows: Rows, names: seq<SecretKey>, keys: Keys, mode: RotationMode)
    requires Configured(rows, names, keys)
    ensures var o := Rotate(World(rows, []), names, keys, mode);
      && o.Done?
      && (o.value.exit == Success <==>
            && Recoverable(rows, names, keys)
            && (mode == Strict ==>
                AllUnder(rows, Service(keys.oldKey, HighestVersion(rows, names, MASTER_KEY_VERSION)))))
  {
    var w := World(rows, []);
    VersionRead(w, names, MASTER_KEY_VERSION);
    var version := HighestVersion(rows, names, MASTER_KEY_VERSION);
    var current, replacement := Service(keys.oldKey, version), Service(keys.newKey, version);
    RevealAllExactly(w, current, replacement, mode, names, RevealedStore([], map[]));
    RevealedIsTracked(w, current, replacement, mode, names);
    var revealed := RevealAll(w, current, replacement, mode, names, RevealedStore([], map[])).value;
    if revealed.Some? {
      PhaseTwoExactly(w, current, replacement, names, revealed.value);
      SameTexts(rows, revealed.value.plaintexts);
    }
  }

  lemma SameTexts(rows: Rows, plaintexts: seq<(SecretKey, string)>)
    requires forall item :: item in plaintexts <==> item.0 in rows && rows[item.0].plaintext == item.1
    ensures (forall item :: item in plaintexts ==> item.1 != "") <==> forall name :: name in rows ==> rows[name].plaintext != ""
  {
    forall name | name in rows && rows[name].plaintext == ""
      ensures exists item :: item in plaintexts && item.1 == ""
    {
      assert (name, "") in plaintexts;
    }
  }

  /** Without faults phase 2 always comes back, and it succeeds exactly when no secret is empty. */
  lemma PhaseTwoExactly(w: World, current: Service, replacement: Service, names: seq<SecretKey>, revealed: RevealedStore)
    requires w.fates == []
    ensures var o := WriteUnderNewKey(w, current, replacement, names, revealed);
      o.Done? && (o.value.exit == Success <==> forall item :: item in revealed.plaintexts ==> item.1 != "")
  {
    WriteAllExactly(w, replacement, revealed.plaintexts, revealed.sealedUnderNewKey);
    var loop := WriteAll(w, replacement, revealed.plaintexts, revealed.sealedUnderNewKey);
    if loop.outcome.Threw? {
      CompensateFinishes(loop.outcome.world, current, names, loop.sealedUnderNewKey, []);
    }
  }

  /** Without faults the rollback loop always comes back. */
  lemma {:induction false} CompensateFinishes(w: World, current: Service, names: seq<SecretKey>, issued: Plaintexts,
                                              stranded: seq<SecretKey>)
    requires w.fates == []
    ensures Compensate(w, current, names, issued, stranded).Done?
    decreases names
  {
    if names != [] {
      if names[0] !in issued {
        CompensateFinishes(w, current, names[1..], issued, stranded);
      } else {
        var o := SetSecret(w, current, names[0], issued[names[0]]);
        CompensateFinishes(o.world, current, names[1..], issued, if o.Done? then stranded else stranded + [names[0]]);
      }
    }
  }

  /** One run of the rotation: its mode, and what happens to its calls. */
  datatype Attempt = Attempt(mode: RotationMode, fates: seq<Fate>)

  /** The rows after a sequence of runs, each of which may complete, fail, or crash anywhere. */
  ghost function AfterRuns(rows: Rows, names: seq<SecretKey>, keys: Keys, runs: seq<Attempt>): Rows
    decreases runs
  {
    if runs == [] then rows
    else AfterRuns(Rotate(World(rows, runs[0].fates), names, keys, runs[0].mode).world.rows, names, keys, runs[1..])
  }

  lemma PreservedKeepsRecoverable(before: Rows, after: Rows, names: seq<SecretKey>, keys: Keys)
    requires Preserved(before, after, keys)
    ensures Recoverable(before, names, keys) ==> Recoverable(after, names, keys)
  {
    forall name | name in before
      ensures before[name].version == after[name].version
    {
    }
    SameVersionsSameHighest(before, after, names, MASTER_KEY_VERSION);
  }

  lemma PreservedIsTransitive(a: Rows, b: Rows, c: Rows, keys: Keys)
    requires Preserved(a, b, keys) && Preserved(b, c, keys)
    ensures Preserved(a, c, keys)
  {
    forall name | name in a
      ensures c[name] == a[name] || Resealed(name, a[name], c[name], keys)
    {
      assert name in b && name in c;
    }
  }

  lemma {:induction false} RunsPreserve(rows: Rows, names: seq<SecretKey>, keys: Keys, runs: seq<Attempt>)
    requires Configured(rows, names, keys)
    ensures Preserved(rows, AfterRuns(rows, names, keys, runs), keys)
    decreases runs
  {
    if runs != [] {
      var w := World(rows, runs[0].fates);
      RotationKeepsEverySecret(w, names, keys, runs[0].mode);
      var next := Rotate(w, names, keys, runs[0].mode).world.rows;
      RunsPreserve(next, names, keys, runs[1..]);
      PreservedIsTransitive(rows, next, AfterRuns(rows, names, keys, runs), keys);
    }
  }

  lemma SameSize(a: Rows, b: Rows)
    requires a.Keys == b.Keys
    ensures |a| == |b|
  {
    assert |a| == |a.Keys| && |b| == |b.Keys|;
  }

  /**
   * Recoverability: from a recoverable store, after any finite sequence of rotations in either mode,
   * however each of them ended, one salvage run without faults completes with every plaintext intact
   * under the new key.
   */
  lemma {:induction false} SalvageRecovers(rows: Rows, names: seq<SecretKey>, keys: Keys, runs: seq<Attempt>)
    requires Configured(rows, names, keys) && Recoverable(rows, names, keys)
    ensures var o := Rotate(World(AfterRuns(rows, names, keys, runs), []), names, keys, Salvage);
      && o.Done? && o.value.exit == Success && o.value.rotated == |rows|
      && o.world.rows.Keys == rows.Keys
      && AllUnder(o.world.rows, Service(keys.newKey, o.value.keyVersion))
      && forall name :: name in rows ==>
           o.world.rows[name].plaintext == rows[name].plaintext && o.world.rows[name].version == rows[name].version
  {
    RunsPreserve(rows, names, keys, runs);
    var middle := AfterRuns(rows, names, keys, runs);
    PreservedKeepsRecoverable(rows, middle, names, keys);
    FaultFreeRotation(middle, names, keys, Salvage);
    RotationKeepsEverySecret(World(middle, []), names, keys, Salvage);
    var last := Rotate(World(middle, []), names, keys, Salvage).world.rows;
    PreservedIsTransitive(rows, middle, last, keys);
    SameSize(rows, last);
  }
}

/**
 * Master-key rotation: every stored secret is revealed, then re-sealed under the new key, and put
 * back under the old key when a write fails part way through.
 *
 * The functions give the meaning of each step of the rotation over an explicit world; the methods
 * are the loops over the row store, each proved to mean its function. A crash is one of the fates of
 * every repository call, so a statement about all fates is a statement about every intermediate
 * state of every run.
 */
module KeyRotation {
  import opened Common
  import opened SecretStore

  /** Version stamped when nothing is stored yet. */
  const MASTER_KEY_VERSION: int := 1

  datatype RotationMode = Strict | Salvage

  datatype Exit = Success | Aborted | RolledBack | CompensationIncomplete {
    function Code(): int {
      match this
      case Success => 0
      case Aborted => 2
      case RolledBack => 3
      case CompensationIncomplete => 4
    }
  }

  datatype RotateResult = RotateResult(rotated: nat, keyVersion: int, exit: Exit, strandedKeys: seq<SecretKey>)

  /** One secret reading in phase 1: its value, and whether it took the replacement key. */
  datatype OpenedSecret = OpenedSecret(plaintext: Option<string>, underNewKey: bool)

  type Plaintexts = map<SecretKey, string>

  /** What phase 1 hands to phase 2; `plaintexts` is a map with its insertion order. */
  datatype RevealedStore = RevealedStore(plaintexts: seq<(SecretKey, string)>, sealedUnderNewKey: Plaintexts)

  datatype Keys = Keys(oldKey: KeyMaterial, newKey: KeyMaterial)

  // ---------------------------------------------------------------- the steps

  function CurrentKeyVersion(w: World, names: seq<SecretKey>, max: int): Outcome<int>
    decreases names
  {
    if names == [] then Done(w, max)
    else
      var (w', found) :- Get(w, names[0]);
      CurrentKeyVersion(w', names[1..], if found.Some? && max < found.value.version then found.value.version else max)
  }

  function OpenSecret(w: World, current: Service, replacement: Service, name: SecretKey, mode: RotationMode)
    : Outcome<Option<OpenedSecret>>
  {
    match Reveal(w, current, name)
    case Done(w', p) => Done(w', Some(OpenedSecret(p, false)))
    case Crashed(w') => Crashed(w')
    case Threw(w') =>
      if mode == Strict then Done(w', None)
      else
        match Reveal(w', replacement, name)
        case Done(w'', p) => Done(w'', Some(OpenedSecret(p, true)))
        case Crashed(w'') => Crashed(w'')
        case Threw(w'') => Done(w'', None)
  }

  function Record(acc: RevealedStore, name: SecretKey, reading: OpenedSecret): RevealedStore {
    match reading.plaintext
    case None => acc
    case Some(p) =>
      RevealedStore(acc.plaintexts + [(name, p)],
                    if reading.underNewKey then acc.sealedUnderNewKey[name := p] else acc.sealedUnderNewKey)
  }

  function RevealAll(w: World, current: Service, replacement: Service, mode: RotationMode,
                     names: seq<SecretKey>, acc: RevealedStore): Outcome<Option<RevealedStore>>
    decreases names
  {
    if names == [] then Done(w, Some(acc))
    else
      var (w', reading) :- OpenSecret(w, current, replacement, names[0], mode);
      if reading.None? then Done(w', None)
      else RevealAll(w', current, replacement, mode, names[1..], Record(acc, names[0], reading.value))
  }

  /** The write loop: how it ended, and every secret whose write was issued. */
  datatype WriteLoop = WriteLoop(outcome: Outcome<()>, sealedUnderNewKey: Plaintexts)

  function WriteAll(w: World, replacement: Service, todo: seq<(SecretKey, string)>, issued: Plaintexts): WriteLoop
    decreases todo
  {
    if todo == [] then WriteLoop(Done(w, ()), issued)
    else
      var issued' := issued[todo[0].0 := todo[0].1];
      match SetSecret(w, replacement, todo[0].0, todo[0].1)
      case Done(w', _) => WriteAll(w', replacement, todo[1..], issued')
      case Threw(w') => WriteLoop(Threw(w'), issued')
      case Crashed(w') => WriteLoop(Crashed(w'), issued')
  }

  function Compensate(w: World, current: Service, names: seq<SecretKey>, issued: Plaintexts, stranded: seq<SecretKey>)
    : Outcome<seq<SecretKey>>
    decreases names
  {
    if names == [] then Done(w, stranded)
    else if names[0] !in issued then Compensate(w, current, names[1..], issued, stranded)
    else
      match SetSecret(w, current, names[0], issued[names[0]])
      case Done(w', _) => Compensate(w', current, names[1..], issued, stranded)
      case Threw(w') => Compensate(w', current, names[1..], issued, stranded + [names[0]])
      case Crashed(w') => Crashed(w')
  }

  function WriteUnderNewKey(w: World, current: Service, replacement: Service, names: seq<SecretKey>,
                            revealed: RevealedStore): Outcome<RotateResult>
  {
    var loop := WriteAll(w, replacement, revealed.plaintexts, revealed.sealedUnderNewKey);
    match loop.outcome
    case Done(w', _) => Done(w', RotateResult(|revealed.plaintexts|, current.version, Success, []))
    case Crashed(w') => Crashed(w')
    case Threw(w') =>
      var (w'', stranded) :- Compensate(w', current, names, loop.sealedUnderNewKey, []);
      Done(w'', RotateResult(0, current.version,
                             if |stranded| > 0 then CompensationIncomplete else RolledBack, stranded))
  }

  function Rotate(w: World, names: seq<SecretKey>, keys: Keys, mode: RotationMode): Outcome<RotateResult> {
    var (w1, version) :- CurrentKeyVersion(w, names, MASTER_KEY_VERSION);
    var current, replacement := Service(keys.oldKey, version), Service(keys.newKey, version);
    var (w2, revealed) :- RevealAll(w1, current, replacement, mode, names, RevealedStore([], map[]));
    if revealed.None? then Done(w2, RotateResult(0, version, Aborted, []))
    else WriteUnderNewKey(w2, current, replacement, names, revealed.value)
  }

  // ---------------------------------------------------------------- the loops

  method ReadCurrentKeyVersion(repo: SecretRepository, names: seq<SecretKey>) returns (r: Reply<int>)
    modifies repo`fates
    ensures Pack(repo.State(), r) == CurrentKeyVersion(old(repo.State()), names, MASTER_KEY_VERSION)
  {
    var max := MASTER_KEY_VERSION;
    for i := 0 to |names|
      invariant CurrentKeyVersion(old(repo.State()), names, MASTER_KEY_VERSION)
             == CurrentKeyVersion(repo.State(), names[i..], max)
      invariant repo.rows == old(repo.rows)
    {
      var found := repo.GetRow(names[i]);
      if !found.Returned? {
        return if found.Died? then Died else Raised;
      }
      if found.value.Some? && max < found.value.value.version {
        max := found.value.value.version;
      }
      assert names[i..][1..] == names[i + 1..];
    }
    r := Returned(max);
  }

  method OpenOne(repo: SecretRepository, current: Service, replacement: Service, name: SecretKey, mode: RotationMode)
    returns (r: Reply<Option<OpenedSecret>>)
    modifies repo`fates
    ensures Pack(repo.State(), r) == OpenSecret(old(repo.State()), current, replacement, name, mode)
  {
    var first := repo.RevealRow(current, name);
    match first {
      case Returned(p) => return Returned(Some(OpenedSecret(p, false)));
      case Died => return Died;
      case Raised =>
        if mode == Strict {
          return Returned(None);
        }
    }
    var second := repo.RevealRow(replacement, name);
    match second
    case Returned(p) => r := Returned(Some(OpenedSecret(p, true)));
    case Died => r := Died;
    case Raised => r := Returned(None);
  }

  method RevealEverySecret(repo: SecretRepository, current: Service, replacement: Service, mode: RotationMode,
                           names: seq<SecretKey>)
    returns (r: Reply<Option<RevealedStore>>)
    modifies repo`fates
    ensures Pack(repo.State(), r)
         == RevealAll(old(repo.State()), current, replacement, mode, names, RevealedStore([], map[]))
  {
    var acc := RevealedStore([], map[]);
    for i := 0 to |names|
      invariant RevealAll(old(repo.State()), current, replacement, mode, names, RevealedStore([], map[]))
             == RevealAll(repo.State(), current, replacement, mode, names[i..], acc)
    {
      var reading := OpenOne(repo, current, replacement, names[i], mode);
      match reading {
        case Raised => return Raised;
        case Died => return Died;
        case Returned(None) => return Returned(None);
        case Returned(Some(secret)) => acc := Record(acc, names[i], secret);
      }
      assert names[i..][1..] == names[i + 1..];
    }
    r := Returned(Some(acc));
  }

  method WriteEverySecret(repo: SecretRepository, replacement: Service, revealed: RevealedStore)
    returns (r: Reply<()>, sealedUnderNewKey: Plaintexts)
    modifies repo
    ensures WriteLoop(Pack(repo.State(), r), sealedUnderNewKey)
         == WriteAll(old(repo.State()), replacement, revealed.plaintexts, revealed.sealedUnderNewKey)
  {
    var todo := revealed.plaintexts;
    sealedUnderNewKey := revealed.sealedUnderNewKey;
    for i := 0 to |todo|
      invariant WriteAll(old(repo.State()), replacement, todo, revealed.sealedUnderNewKey)
             == WriteAll(repo.State(), replacement, todo[i..], sealedUnderNewKey)
    {
      sealedUnderNewKey := sealedUnderNewKey[todo[i].0 := todo[i].1];
      var written := repo.Set(replacement, todo[i].0, todo[i].1);
      if !written.Returned? {
        return if written.Died? then Died else Raised, sealedUnderNewKey;
      }
      assert todo[i..][1..] == todo[i + 1..];
    }
    r := Returned(());
  }

  method CompensateEverySecret(repo: SecretRepository, current: Service, names: seq<SecretKey>, issued: Plaintexts)
    returns (r: Reply<seq<SecretKey>>)
    modifies repo
    ensures Pack(repo.State(), r) == Compensate(old(repo.State()), current, names, issued, [])
  {
    var stranded: seq<SecretKey> := [];
    for i := 0 to |names|
      invariant Compensate(old(repo.State()), current, names, issued, [])
             == Compensate(repo.State(), current, names[i..], issued, stranded)
    {
      assert names[i..][1..] == names[i + 1..];
      if names[i] in issued {
        var written := repo.Set(current, names[i], issued[names[i]]);
        match written
        case Died => return Died;
        case Raised => stranded := stranded + [names[i]];
        case Returned(_) =>
      }
    }
    r := Returned(stranded);
  }

  method RotateSecrets(repo: SecretRepository, names: seq<SecretKey>, keys: Keys, mode: RotationMode)
    returns (r: Reply<RotateResult>)
    modifies repo
    ensures Pack(repo.State(), r) == Rotate(old(repo.State()), names, keys, mode)
  {
    var version := ReadCurrentKeyVersion(repo, names);
    if !version.Returned? {
      return if version.Died? then Died else Raised;
    }
    var current, replacement := Service(keys.oldKey, version.value), Service(keys.newKey, version.value);
    var revealed := RevealEverySecret(repo, current, replacement, mode, names);
    match revealed {
      case Raised => return Raised;
      case Died => return Died;
      case Returned(None) => return Returned(RotateResult(0, version.value, Aborted, []));
      case Returned(Some(store)) =>
        var written, issued := WriteEverySecret(repo, replacement, store);
        match written
        case Died => return Died;
        case Returned(_) => return Returned(RotateResult(|store.plaintexts|, version.value, Success, []));
        case Raised =>
          var stranded := CompensateEverySecret(repo, current, names, issued);
          match stranded
          case Died => return Died;
          case Raised => return Raised;
          case Returned(left) =>
            return Returned(RotateResult(0, version.value,
                                         if |left| > 0 then CompensationIncomplete else RolledBack, left));
    }
  }
}

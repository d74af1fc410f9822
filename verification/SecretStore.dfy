/**
 * The encrypted secret store, with a server that may fail under its callers.
 *
 * A stored envelope is described by what authenticated decryption can tell apart: the row it was
 * sealed for, the key material, the key version and the plaintext. The cipher stays abstract; all
 * that is kept of it is that an envelope opens under exactly the key, version and row it was sealed
 * with and fails closed otherwise.
 */
module SecretStore {
  import opened Common

  type SecretKey = string
  type KeyMaterial = string

  datatype Envelope = Envelope(boundTo: SecretKey, sealedUnder: KeyMaterial, plaintext: string, version: int)

  type Rows = map<SecretKey, Envelope>

  /** What becomes of one repository call. A crash ends the calling process, before or after a commit. */
  datatype Fate = Answered | AppliedThenRejected | Rejected | CrashedBefore | CrashedAfter

  /** The rows, and the fates of the calls still to come; once these run out every call is answered. */
  datatype World = World(rows: Rows, fates: seq<Fate>) {
    function Next(): Fate {
      if fates == [] then Answered else fates[0]
    }

    function Spent(): World {
      if fates == [] then this else this.(fates := fates[1..])
    }
  }

  /** How an awaited call comes back: a value, an exception, or never because the process is gone. */
  datatype Outcome<+T> =
    | Done(world: World, value: T)
    | Threw(world: World)
    | Crashed(world: World)
  {
    predicate IsFailure() {
      !Done?
    }

    function PropagateFailure<U>(): Outcome<U>
      requires !Done?
    {
      if Threw? then Threw(world) else Crashed(world)
    }

    function Extract(): (World, T)
      requires Done?
    {
      (world, value)
    }
  }

  function Get(w: World, name: SecretKey): Outcome<Option<Envelope>> {
    var w' := w.Spent();
    match w.Next()
    case Answered => Done(w', if name in w.rows then Some(w.rows[name]) else None)
    case AppliedThenRejected => Threw(w')
    case Rejected => Threw(w')
    case CrashedBefore => Crashed(w')
    case CrashedAfter => Crashed(w')
  }

  function Upsert(w: World, name: SecretKey, envelope: Envelope): Outcome<()> {
    var w' := w.Spent();
    var applied := w'.(rows := w.rows[name := envelope]);
    match w.Next()
    case Answered => Done(applied, ())
    case AppliedThenRejected => Threw(applied)
    case Rejected => Threw(w')
    case CrashedBefore => Crashed(w')
    case CrashedAfter => Crashed(applied)
  }

  /** A secrets service bound to one key and one key version. */
  datatype Service = Service(key: KeyMaterial, version: int)

  predicate Opens(name: SecretKey, e: Envelope, service: Service) {
    e.boundTo == name && e.sealedUnder == service.key && e.version == service.version
  }

  /** Encrypts and stores; an empty plaintext is refused before the repository is reached. */
  function SetSecret(w: World, service: Service, name: SecretKey, plaintext: string): Outcome<()> {
    if plaintext == "" then Threw(w)
    else Upsert(w, name, Envelope(name, service.key, plaintext, service.version))
  }

  /** Reads and decrypts; no row is `None`, an envelope that does not authenticate throws. */
  function Reveal(w: World, service: Service, name: SecretKey): Outcome<Option<string>> {
    var (w', found) :- Get(w, name);
    match found
    case None => Done(w', None)
    case Some(e) => if Opens(name, e, service) then Done(w', Some(e.plaintext)) else Threw(w')
  }

  /** A reply without the world it left behind. */
  datatype Reply<+T> = Returned(value: T) | Raised | Died

  function Pack<T>(w: World, r: Reply<T>): Outcome<T> {
    match r
    case Returned(v) => Done(w, v)
    case Raised => Threw(w)
    case Died => Crashed(w)
  }

  /** The row store itself: rows are overwritten in place, one call at a time. */
  class SecretRepository {
    var rows: Rows
    var fates: seq<Fate>

    ghost function State(): World
      reads this
    {
      World(rows, fates)
    }

    constructor (rows: Rows, fates: seq<Fate>)
      ensures this.rows == rows && this.fates == fates
    {
      this.rows, this.fates := rows, fates;
    }

    method NextFate() returns (fate: Fate)
      modifies this`fates
      ensures fate == old(State()).Next() && State() == old(State()).Spent()
    {
      fate := Answered;
      if fates != [] {
        fate, fates := fates[0], fates[1..];
      }
    }

    method GetRow(name: SecretKey) returns (r: Reply<Option<Envelope>>)
      modifies this`fates
      ensures Pack(State(), r) == Get(old(State()), name)
    {
      var fate := NextFate();
      match fate
      case Answered => r := Returned(if name in rows then Some(rows[name]) else None);
      case AppliedThenRejected => r := Raised;
      case Rejected => r := Raised;
      case CrashedBefore => r := Died;
      case CrashedAfter => r := Died;
    }

    method UpsertRow(name: SecretKey, envelope: Envelope) returns (r: Reply<()>)
      modifies this
      ensures Pack(State(), r) == Upsert(old(State()), name, envelope)
    {
      var fate := NextFate();
      if fate in {Answered, AppliedThenRejected, CrashedAfter} {
        rows := rows[name := envelope];
      }
      r := match fate
        case Answered => Returned(())
        case AppliedThenRejected => Raised
        case Rejected => Raised
        case CrashedBefore => Died
        case CrashedAfter => Died;
    }

    method Set(service: Service, name: SecretKey, plaintext: string) returns (r: Reply<()>)
      modifies this
      ensures Pack(State(), r) == SetSecret(old(State()), service, name, plaintext)
    {
      if plaintext == "" {
        return Raised;
      }
      r := UpsertRow(name, Envelope(name, service.key, plaintext, service.version));
    }

    method RevealRow(service: Service, name: SecretKey) returns (r: Reply<Option<string>>)
      modifies this`fates
      ensures Pack(State(), r) == Reveal(old(State()), service, name)
    {
      var found := GetRow(name);
      match found
      case Raised => r := Raised;
      case Died => r := Died;
      case Returned(None) => r := Returned(None);
      case Returned(Some(e)) => r := if Opens(name, e, service) then Returned(Some(e.plaintext)) else Raised;
    }
  }
}

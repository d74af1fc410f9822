/**
 * Reserving a port base when no other process interferes: the allocator of one process, the sweep
 * over its range, and what a reservation can count on.
 */
module PortSweep {
  import opened Common
  import opened PortBase

  /** Ports one instance occupies, and the distance between bases. */
  const PORT_BASE_STRIDE := 3

  /** What the probes of other files and processes answer while nobody else runs. */
  datatype Surroundings = Surroundings(live: set<Pid>, aged: set<Path>)

  predicate Abandoned(files: map<Path, File>, env: Surroundings, path: Path) {
    path !in files || files[path].Unreadable? || files[path].pid !in env.live || path in env.aged
  }

  /** Two readings of the surroundings agree about the files there are. */
  ghost predicate SameProbes(files: map<Path, File>, now: Surroundings, before: Surroundings) {
    now.live == before.live && forall path :: path in files ==> (path in now.aged <==> path in before.aged)
  }

  /** A base a reservation may end up with: free, or abandoned under a lock nobody live holds. */
  predicate Available(files: map<Path, File>, env: Surroundings, b: int) {
    Marker(b) !in files || (Abandoned(files, env, Marker(b)) && Abandoned(files, env, Lock(b)))
  }

  /** The directory after a claim that found the base taken. */
  function AfterFailedClaim(files: map<Path, File>, env: Surroundings, b: int): map<Path, File> {
    if !Abandoned(files, env, Lock(b)) then files
    else if Abandoned(files, env, Marker(b)) then Without(Without(files, Marker(b)), Lock(b))
    else Without(files, Lock(b))
  }

  /** The `j`-th base of a range. */
  function AlignedBase(floor: int, j: int): int {
    floor + PORT_BASE_STRIDE * j
  }

  ghost predicate InRange(floor: int, span: int, b: int) {
    exists j :: 0 <= j < span / PORT_BASE_STRIDE && b == AlignedBase(floor, j)
  }

  /** The base the `i`-th attempt of a sweep looks at. */
  function BaseAt(floor: int, span: int, start: int, i: int): int
    requires span > 0
  {
    floor + (start + PORT_BASE_STRIDE * i) % span
  }

  /** The module variables of one process, and the directory it shares. */
  class PortAllocator {
    const self: Pid
    var live: set<Pid>
    var aged: set<Path>
    var files: map<Path, File>
    var nextPortBase: nat
    var claims: seq<int>

    ghost function Env(): Surroundings
      reads this
    {
      Surroundings(live, aged)
    }

    constructor (self: Pid, live: set<Pid>, aged: set<Path>, files: map<Path, File>)
      ensures this.self == self && this.live == live && this.aged == aged && this.files == files
      ensures nextPortBase % PORT_BASE_STRIDE == 0 && claims == []
    {
      this.self, this.live, this.aged, this.files := self, live, aged, files;
      nextPortBase := self * PORT_BASE_STRIDE;
      claims := [];
    }

    method Publish(path: Path) returns (taken: bool)
      modifies this`files, this`aged
      ensures taken <==> path !in old(files)
      ensures files == if taken then old(files)[path := Names(self)] else old(files)
      ensures aged == if taken then old(aged) - {path} else old(aged)
    {
      taken := path !in files;
      if taken {
        files, aged := files[path := Names(self)], aged - {path};
      }
    }

    method OwnerOf(path: Path) returns (owner: Option<Pid>)
      ensures owner == if path in files && files[path].Names? then Some(files[path].pid) else None
    {
      owner := None;
      if path in files {
        match files[path]
        case Names(pid) => owner := Some(pid);
        case Unreadable =>
      }
    }

    method IsAbandoned(path: Path) returns (r: bool)
      ensures r <==> Abandoned(files, Env(), path)
    {
      var owner := OwnerOf(path);
      if owner.None? || owner.value !in live {
        return true;
      }
      r := path !in files || path in aged;
    }

    method Remove(path: Path)
      modifies this`files
      ensures files == Without(old(files), path)
    {
      files := map other | other in files && other != path :: files[other];
    }

    method TakeReclaimLock(b: int) returns (taken: bool)
      modifies this`files, this`aged
      ensures taken <==> Abandoned(old(files), old(Env()), Lock(b))
      ensures files == if taken then old(files)[Lock(b) := Names(self)] else old(files)
      ensures aged == if taken then old(aged) - {Lock(b)} else old(aged)
    {
      taken := Publish(Lock(b));
      if taken {
        return;
      }
      var abandoned := IsAbandoned(Lock(b));
      if !abandoned {
        return false;
      }
      Remove(Lock(b));
      taken := Publish(Lock(b));
      assert files == old(files)[Lock(b) := Names(self)];
    }

    method ReclaimIfOwnerGone(b: int)
      modifies this`files, this`aged
      ensures files == AfterFailedClaim(old(files), old(Env()), b)
      ensures SameProbes(files, Env(), old(Env()))
    {
      var taken := TakeReclaimLock(b);
      if !taken {
        return;
      }
      var abandoned := IsAbandoned(Marker(b));
      if abandoned {
        Remove(Marker(b));
      }
      Remove(Lock(b));
      assert files == AfterFailedClaim(old(files), old(Env()), b);
    }

    method ClaimPortBase(b: int) returns (claimed: bool)
      modifies this`files, this`aged, this`claims
      ensures claimed <==> Marker(b) !in old(files)
      ensures files == if claimed then old(files)[Marker(b) := Names(self)] else AfterFailedClaim(old(files), old(Env()), b)
      ensures claims == if claimed then old(claims) + [b] else old(claims)
      ensures !claimed ==> SameProbes(files, Env(), old(Env()))
    {
      claimed := Publish(Marker(b));
      if claimed {
        claims := claims + [b];
        return;
      }
      ReclaimIfOwnerGone(b);
    }

    /**
     * Two sweeps of the range. The reservation succeeds exactly when some base of the range is free
     * or abandoned, takes such a base, and disturbs no file that names a live process.
     */
    method ReservePortBase(floor: int, span: int) returns (r: Option<int>)
      requires span > 0 && span % PORT_BASE_STRIDE == 0 && nextPortBase % PORT_BASE_STRIDE == 0
      modifies this`files, this`aged, this`claims, this`nextPortBase
      ensures nextPortBase % PORT_BASE_STRIDE == 0
      ensures r.Some? ==>
        && InRange(floor, span, r.value) && Available(old(files), old(Env()), r.value)
        && Marker(r.value) in files && files[Marker(r.value)] == Names(self)
      ensures r.None? ==> forall j :: 0 <= j < span / PORT_BASE_STRIDE ==>
                            !Available(old(files), old(Env()), AlignedBase(floor, j))
      ensures claims == if r.Some? then old(claims) + [r.value] else old(claims)
      ensures LiveKept(old(files), old(Env()), files)
    {
      var attempts := span / PORT_BASE_STRIDE * 2;
      ghost var start, files0, env := nextPortBase, files, Env();
      for attempt := 0 to attempts
        invariant nextPortBase == start + PORT_BASE_STRIDE * attempt && nextPortBase % PORT_BASE_STRIDE == 0
        invariant claims == old(claims)
        invariant SameProbes(files, Env(), env)
        invariant Thinned(files0, env, files) && Swept(files0, env, files, floor, span, start, attempt)
      {
        var base := floor + nextPortBase % span;
        assert base == BaseAt(floor, span, start, attempt);
        StrideKeepsAlignment(nextPortBase);
        nextPortBase := nextPortBase + PORT_BASE_STRIDE;
        ghost var before, envBefore := files, Env();
        var claimed := ClaimPortBase(base);
        if claimed {
          AvailableWhenClaimed(files0, env, before, floor, span, start, attempt);
          ClaimKeepsLive(files0, env, before, base, self);
          return Some(base);
        }
        FailedAttempt(files0, env, before, envBefore, floor, span, start, attempt);
      }
      NothingAvailable(files0, env, files, floor, span, start);
      r := None;
    }

    method ReleasePortBases()
      modifies this`files, this`claims
      ensures claims == []
      ensures forall path :: path in files <==> path in old(files) && !(path.Marker? && path.base in old(claims))
      ensures forall path :: path in files ==> files[path] == old(files)[path]
    {
      for i := 0 to |claims|
        invariant claims == old(claims)
        invariant forall path :: path in files <==> path in old(files) && !(path.Marker? && path.base in claims[..i])
        invariant forall path :: path in files ==> files[path] == old(files)[path]
      {
        Remove(Marker(claims[i]));
        assert claims[..i + 1] == claims[..i] + [claims[i]];
      }
      assert claims[..|claims|] == claims;
      claims := [];
    }
  }

  /** The directory lost only abandoned files, and markers only of available bases. */
  ghost predicate Thinned(before: map<Path, File>, env: Surroundings, after: map<Path, File>) {
    && (forall path :: path in after ==> path in before && after[path] == before[path])
    && (forall path :: path in before && path !in after ==> Abandoned(before, env, path))
    && (forall b :: Marker(b) in before && Marker(b) !in after ==> Available(before, env, b))
  }

  /** No file that names a live process went away or changed. */
  ghost predicate LiveKept(before: map<Path, File>, env: Surroundings, after: map<Path, File>) {
    forall path :: path in before && !Abandoned(before, env, path) ==> path in after && after[path] == before[path]
  }

  lemma ClaimKeepsLive(before: map<Path, File>, env: Surroundings, now: map<Path, File>, b: int, self: Pid)
    requires Thinned(before, env, now) && Marker(b) !in now
    ensures LiveKept(before, env, now[Marker(b) := Names(self)])
  {
  }

  /** What the attempts before `attempt` have established about the bases they looked at. */
  ghost predicate Swept(before: map<Path, File>, env: Surroundings, now: map<Path, File>,
                        floor: int, span: int, start: int, attempt: int)
    requires span > 0
  {
    var n := span / PORT_BASE_STRIDE;
    && (forall i :: 0 <= i < n && i < attempt ==>
          && Marker(BaseAt(floor, span, start, i)) in before
          && (Available(before, env, BaseAt(floor, span, start, i)) ==> Marker(BaseAt(floor, span, start, i)) !in now))
    && (forall i :: attempt <= i < n ==> Untouched(before, now, BaseAt(floor, span, start, i)))
    && (forall i :: 0 <= i < n && i < attempt - n ==> !Available(before, env, BaseAt(floor, span, start, i)))
  }

  predicate Untouched(before: map<Path, File>, now: map<Path, File>, b: int) {
    && (Marker(b) in before ==> Marker(b) in now)
    && (Lock(b) in before ==> Lock(b) in now)
  }

  /** While the directory only loses files, what is left of it is judged as at the start. */
  lemma SameVerdict(before: map<Path, File>, env: Surroundings, now: map<Path, File>, envNow: Surroundings, path: Path)
    requires Thinned(before, env, now) && SameProbes(now, envNow, env)
    ensures Abandoned(now, envNow, path) <==> Abandoned(before, env, path)
  {
  }

  lemma FailedAttempt(before: map<Path, File>, env: Surroundings, now: map<Path, File>, envNow: Surroundings,
                      floor: int, span: int, start: int, attempt: int)
    requires span > 0 && span % PORT_BASE_STRIDE == 0 && start % PORT_BASE_STRIDE == 0
    requires 0 <= attempt < 2 * (span / PORT_BASE_STRIDE)
    requires Thinned(before, env, now) && Swept(before, env, now, floor, span, start, attempt)
    requires SameProbes(now, envNow, env)
    requires Marker(BaseAt(floor, span, start, attempt)) in now
    ensures var after := AfterFailedClaim(now, envNow, BaseAt(floor, span, start, attempt));
      Thinned(before, env, after) && Swept(before, env, after, floor, span, start, attempt + 1)
  {
    var n, b := span / PORT_BASE_STRIDE, BaseAt(floor, span, start, attempt);
    var after := AfterFailedClaim(now, envNow, b);
    SameVerdict(before, env, now, envNow, Marker(b));
    SameVerdict(before, env, now, envNow, Lock(b));
    assert Available(before, env, b) ==> Marker(b) !in after;
    forall i | attempt + 1 <= i < n
      ensures Untouched(before, after, BaseAt(floor, span, start, i))
    {
      BasesDiffer(floor, span, start, attempt, i);
      assert Untouched(before, now, BaseAt(floor, span, start, i));
    }
    if attempt >= n {
      BaseRepeats(floor, span, start, attempt - n);
    }
  }

  lemma AvailableWhenClaimed(before: map<Path, File>, env: Surroundings, now: map<Path, File>,
                             floor: int, span: int, start: int, attempt: int)
    requires span > 0 && span % PORT_BASE_STRIDE == 0 && start % PORT_BASE_STRIDE == 0
    requires 0 <= attempt < 2 * (span / PORT_BASE_STRIDE)
    requires Thinned(before, env, now) && Swept(before, env, now, floor, span, start, attempt)
    requires Marker(BaseAt(floor, span, start, attempt)) !in now
    ensures Available(before, env, BaseAt(floor, span, start, attempt))
    ensures InRange(floor, span, BaseAt(floor, span, start, attempt))
  {
    BaseInRange(floor, span, start, attempt);
  }

  lemma NothingAvailable(before: map<Path, File>, env: Surroundings, now: map<Path, File>, floor: int, span: int, start: int)
    requires span > 0 && span % PORT_BASE_STRIDE == 0 && start % PORT_BASE_STRIDE == 0
    requires Swept(before, env, now, floor, span, start, 2 * (span / PORT_BASE_STRIDE))
    ensures forall j :: 0 <= j < span / PORT_BASE_STRIDE ==> !Available(before, env, AlignedBase(floor, j))
  {
    forall j | 0 <= j < span / PORT_BASE_STRIDE
      ensures !Available(before, env, AlignedBase(floor, j))
    {
      var i := BaseCovers(floor, span, start, j);
    }
  }

  // ---------------------------------------------------------------- the sweep

  lemma StrideKeepsAlignment(base: int)
    requires base % PORT_BASE_STRIDE == 0
    ensures (base + PORT_BASE_STRIDE) % PORT_BASE_STRIDE == 0
  {
  }

  lemma MulLeast(m: int, d: int)
    requires m > 0
    ensures d >= 1 ==> m * d >= m
    ensures d <= -1 ==> m * d <= -m
  {
    if d >= 1 {
      assert m * d == m * (d - 1) + m && m * (d - 1) >= 0;
    } else if d <= -1 {
      assert m * d == m * (d + 1) - m && m * (d + 1) <= 0;
    }
  }

  /** Quotient and remainder are unique. */
  lemma ModUnique(x: int, m: int, q: int, r: int)
    requires m > 0 && x == m * q + r && 0 <= r < m
    ensures x % m == r
  {
    var q', r' := x / m, x % m;
    assert x == m * q' + r';
    assert m * (q - q') == m * q - m * q';
    MulLeast(m, q - q');
  }

  /** The place in the range, counted in strides, that attempt `i` looks at. */
  function Slot(start: int, n: int, i: int): int
    requires n > 0
  {
    (start / PORT_BASE_STRIDE + i) % n
  }

  lemma BaseIsSlot(floor: int, span: int, start: int, i: int)
    requires span > 0 && span % PORT_BASE_STRIDE == 0 && start % PORT_BASE_STRIDE == 0
    ensures BaseAt(floor, span, start, i) == AlignedBase(floor, Slot(start, span / PORT_BASE_STRIDE, i))
  {
    var n, a := span / PORT_BASE_STRIDE, start / PORT_BASE_STRIDE + i;
    var q, r := a / n, a % n;
    assert a == n * q + r;
    assert PORT_BASE_STRIDE * (n * q) == (PORT_BASE_STRIDE * n) * q;
    assert start + PORT_BASE_STRIDE * i == span * q + PORT_BASE_STRIDE * r;
    ModUnique(start + PORT_BASE_STRIDE * i, span, q, PORT_BASE_STRIDE * r);
  }

  lemma SlotRepeats(start: int, n: int, i: int)
    requires n > 0
    ensures Slot(start, n, i + n) == Slot(start, n, i)
  {
    var a := start / PORT_BASE_STRIDE + i;
    assert n * (a / n + 1) == n * (a / n) + n;
    ModUnique(a + n, n, a / n + 1, a % n);
  }

  lemma SlotInjective(start: int, n: int, i: int, k: int)
    requires n > 0 && i < k < i + n
    ensures Slot(start, n, i) != Slot(start, n, k)
  {
    var a, b := start / PORT_BASE_STRIDE + i, start / PORT_BASE_STRIDE + k;
    assert a == n * (a / n) + a % n && b == n * (b / n) + b % n;
    assert n * (b / n - a / n) == n * (b / n) - n * (a / n);
    MulLeast(n, b / n - a / n);
  }

  /** The attempt of the first sweep that looks at place `j`. */
  lemma SlotCovers(start: int, n: int, j: int) returns (i: int)
    requires 0 <= j < n
    ensures 0 <= i < n && Slot(start, n, i) == j
  {
    var k := start / PORT_BASE_STRIDE;
    i := (j - k) % n;
    var q := (j - k) / n;
    assert j - k == n * q + i;
    assert n * -q == -(n * q);
    ModUnique(k + i, n, -q, j);
  }

  lemma BaseInRange(floor: int, span: int, start: int, i: int)
    requires span > 0 && span % PORT_BASE_STRIDE == 0 && start % PORT_BASE_STRIDE == 0
    ensures var j := Slot(start, span / PORT_BASE_STRIDE, i);
      0 <= j < span / PORT_BASE_STRIDE && BaseAt(floor, span, start, i) == AlignedBase(floor, j)
  {
    BaseIsSlot(floor, span, start, i);
  }

  /** The second sweep repeats the first. */
  lemma BaseRepeats(floor: int, span: int, start: int, i: int)
    requires span > 0 && span % PORT_BASE_STRIDE == 0 && start % PORT_BASE_STRIDE == 0
    ensures BaseAt(floor, span, start, i + span / PORT_BASE_STRIDE) == BaseAt(floor, span, start, i)
  {
    SlotRepeats(start, span / PORT_BASE_STRIDE, i);
    BaseIsSlot(floor, span, start, i);
    BaseIsSlot(floor, span, start, i + span / PORT_BASE_STRIDE);
  }

  /** One sweep looks at no base twice. */
  lemma BasesDiffer(floor: int, span: int, start: int, i: int, k: int)
    requires span > 0 && span % PORT_BASE_STRIDE == 0 && start % PORT_BASE_STRIDE == 0
    requires i < k < i + span / PORT_BASE_STRIDE
    ensures BaseAt(floor, span, start, i) != BaseAt(floor, span, start, k)
  {
    SlotInjective(start, span / PORT_BASE_STRIDE, i, k);
    BaseIsSlot(floor, span, start, i);
    BaseIsSlot(floor, span, start, k);
  }

  /** One sweep looks at every aligned base of the range. */
  lemma BaseCovers(floor: int, span: int, start: int, j: int) returns (i: int)
    requires span > 0 && span % PORT_BASE_STRIDE == 0 && start % PORT_BASE_STRIDE == 0
    requires 0 <= j < span / PORT_BASE_STRIDE
    ensures 0 <= i < span / PORT_BASE_STRIDE && BaseAt(floor, span, start, i) == AlignedBase(floor, j)
  {
    i := SlotCovers(start, span / PORT_BASE_STRIDE, j);
    BaseIsSlot(floor, span, start, i);
  }

  /** The attempts of the two sweeps look at every aligned base of the range exactly twice. */
  lemma EveryBaseTwice(floor: int, span: int, start: int, j: int) returns (i: int)
    requires span > 0 && span % PORT_BASE_STRIDE == 0 && start % PORT_BASE_STRIDE == 0
    requires 0 <= j < span / PORT_BASE_STRIDE
    ensures var n := span / PORT_BASE_STRIDE;
      && 0 <= i < n
      && forall k :: 0 <= k < 2 * n ==>
           (BaseAt(floor, span, start, k) == AlignedBase(floor, j) <==> k == i || k == i + n)
  {
    var n := span / PORT_BASE_STRIDE;
    i := BaseCovers(floor, span, start, j);
    BaseRepeats(floor, span, start, i);
    forall k | 0 <= k < 2 * n && k != i && k != i + n
      ensures BaseAt(floor, span, start, k) != BaseAt(floor, span, start, i)
    {
      var k' := if k < n then k else k - n;
      if k >= n {
        BaseRepeats(floor, span, start, k');
      }
      if k' < i {
        BasesDiffer(floor, span, start, k', i);
      } else {
        BasesDiffer(floor, span, start, i, k');
      }
    }
  }

  /** Two different bases reserved from one range name disjoint blocks of three ports inside it. */
  lemma BlocksDisjoint(floor: int, span: int, a: int, b: int, x: int, y: int)
    requires span % PORT_BASE_STRIDE == 0 && a != b
    requires floor <= a < floor + span && (a - floor) % PORT_BASE_STRIDE == 0 && a <= x < a + PORT_BASE_STRIDE
    requires floor <= b < floor + span && (b - floor) % PORT_BASE_STRIDE == 0 && b <= y < b + PORT_BASE_STRIDE
    ensures x != y && floor <= x < floor + span && floor <= y < floor + span
  {
  }
}

/**
 * What preparation keeps: local branches and the work on them, whatever fails and whatever the remote
 * does meanwhile, and where a successful preparation leaves the checkout.
 */
module PrepareProofs {
  import opened Common
  import opened Git
  import opened Divergence
  import opened Prepare

  /** Every local branch of `a` is in `b`, at the same commit. */
  ghost predicate RefsKept(a: Workspace, b: Workspace) {
    a.Cloned? ==>
      b.Cloned? && forall n :: n in a.repo.local ==> n in b.repo.local && b.repo.local[n] == a.repo.local[n]
  }

  /** Every commit of `a` is in `b`, with the same parents; every other name of a commit still names it. */
  ghost predicate HistoryKept(a: Workspace, b: Workspace) {
    a.Cloned? ==>
      && b.Cloned?
      && (forall c :: c in a.repo.history ==> c in b.repo.history && b.repo.history[c] == a.repo.history[c])
      && (forall n :: n in a.repo.revs ==> n in b.repo.revs && b.repo.revs[n] == a.repo.revs[n])
  }

  ghost predicate Accepted(req: Request) {
    req.urlAllowed && BranchNameAllowed(req.baseBranch) && BranchNameAllowed(req.workBranch)
  }

  // ---------------------------------------------------------------- single commands

  lemma FetchPruneKeeps(w: World)
    requires w.ws.Cloned?
    ensures var after := FetchPrune(w).world.ws;
      && RefsKept(w.ws, after) && HistoryKept(w.ws, after)
      && after.repo.local == w.ws.repo.local && after.repo.head == w.ws.repo.head
  {
  }

  /** What cloning or refreshing leaves; a clone brings the base branch as the only local branch. */
  ghost predicate Refreshed(before: Workspace, after: Workspace, req: Request) {
    && RefsKept(before, after) && HistoryKept(before, after)
    && (before.Cloned? ==> after.repo.local == before.repo.local && after.repo.head == before.repo.head)
    && (before.Bare? && after.Cloned? ==> forall n :: n in after.repo.local ==> n == req.baseBranch)
  }

  lemma CloneOrFetchKeeps(w: World, req: Request)
    ensures Refreshed(w.ws, CloneOrFetch(w, req).world.ws, req)
    ensures CloneOrFetch(w, req).Ok? ==> CloneOrFetch(w, req).world.ws.Cloned?
  {
    var (w1, alreadyCloned) := IsWorkTree(w);
    if req.clone {
      if alreadyCloned {
        FetchPruneKeeps(Emit(w1, Refreshing).world);
      } else {
        var w2 := Emit(w1, Cloning(req.baseBranch)).world;
        assert w2.ws == w.ws;
        assert Refreshed(w2.ws, Clone(w2, req.baseBranch).world.ws, req);
      }
    }
  }

  lemma CheckoutKeeps(w: World, name: Name)
    ensures var o := Checkout(w, name);
      && RefsKept(w.ws, o.world.ws) && HistoryKept(w.ws, o.world.ws)
      && (o.Ok? ==>
            && w.ws.Cloned? && o.world.ws.Cloned?
            && (|| (o.world.ws.repo.head == OnBranch(name) && name in o.world.ws.repo.local)
                || (&& name in w.ws.repo.revs && name !in w.ws.repo.local
                    && o.world.ws.repo == w.ws.repo.(head := Detached(w.ws.repo.revs[name])))))
      && (w.ws.Cloned? && name in w.ws.repo.local && o.Ok? ==>
            o.world.ws.repo == w.ws.repo.(head := OnBranch(name)))
  {
  }

  lemma FetchBranchKeeps(w: World, name: Name)
    ensures var o := FetchBranch(w, name);
      && RefsKept(w.ws, o.world.ws) && HistoryKept(w.ws, o.world.ws)
      && (w.ws.Cloned? ==> o.world.ws.Cloned? && o.world.ws.repo.local == w.ws.repo.local
                           && o.world.ws.repo.head == w.ws.repo.head)
      && (o.Ok? ==> o.world.ws.Cloned? && name in o.world.ws.repo.tracking
                    && Resolved(w.Met().remote, name) == Some(o.world.ws.repo.tracking[name]))
  {
  }

  lemma MeasureKeeps(w: World, branch: Name)
    ensures var o := MeasureDivergence(w, branch);
      && o.world.ws == w.ws
      && (o.Ok? ==> w.ws.Cloned? && branch in w.ws.repo.local && branch in w.ws.repo.tracking
                    && o.value == Measured(w.ws.repo.history, w.ws.repo.local[branch], w.ws.repo.tracking[branch]))
  {
  }

  lemma KeptTransitive(a: Workspace, b: Workspace, c: Workspace)
    ensures RefsKept(a, b) && RefsKept(b, c) ==> RefsKept(a, c)
    ensures HistoryKept(a, b) && HistoryKept(b, c) ==> HistoryKept(a, c)
  {
  }

  // ---------------------------------------------------------------- resuming and creating

  /** Resuming moves HEAD and nothing else of its own, and reports the two tips it leaves. */
  lemma ResumeKeeps(w: World, branch: Name, onRemote: bool)
    requires w.ws.Cloned? && branch in w.ws.repo.local
    ensures var o := ResumeWorkBranch(w, branch, onRemote);
      && o.world.ws.Cloned? && o.world.ws.repo.local == w.ws.repo.local && HistoryKept(w.ws, o.world.ws)
      && (o.Ok? ==> o.world.ws.repo.head == OnBranch(branch))
      && (o.Ok? && onRemote ==>
            && branch in o.world.ws.repo.tracking
            && o.value.note == DivergenceNote(Measured(o.world.ws.repo.history, o.world.ws.repo.local[branch],
                                                       o.world.ws.repo.tracking[branch])))
      && (o.Ok? && !onRemote ==> o.value.note.None?)
  {
    CheckoutKeeps(w, branch);
    var o1 := Checkout(w, branch);
    if o1.Ok? && onRemote {
      FetchBranchKeeps(o1.world, branch);
      KeptTransitive(w.ws, o1.world.ws, FetchBranch(o1.world, branch).world.ws);
      MeasureKeeps(FetchBranch(o1.world, branch).world, branch);
    }
  }

  /** The branch and its remote counterpart are commits of an acyclic history. */
  ghost predicate Comparable(ws: Workspace, branch: Name) {
    && ws.Cloned? && Acyclic(ws.repo.history)
    && branch in ws.repo.local && ws.repo.local[branch] in ws.repo.history
    && branch in ws.repo.tracking && ws.repo.tracking[branch] in ws.repo.history
  }

  /** The note a resumed branch produces is silent exactly when the two tips are one commit. */
  lemma ResumeReportsExactly(w: World, branch: Name, after: World, outcome: WorkBranch)
    requires w.ws.Cloned? && branch in w.ws.repo.local
    requires ResumeWorkBranch(w, branch, true) == Ok(after, outcome) && Comparable(after.ws, branch)
    ensures outcome.note.None? <==> w.ws.repo.local[branch] == after.ws.repo.tracking[branch]
  {
    ResumeKeeps(w, branch, true);
    var r := after.ws.repo;
    NoteIsExact(r.history, r.local[branch], r.tracking[branch]);
  }

  /**
   * The one way preparation moves a local branch: the branch exists, `rev-parse` failed to say so,
   * its name stands for another commit at the remote, and the reset takes effect.
   */
  ghost predicate ResetMoves(w: World, work: Name) {
    && w.ws.Cloned? && work in w.ws.repo.local
    && w.Fate() == Succeeds && Resolved(w.Met().remote, work).Some?
    && FetchBranch(w, work).world.Fate() != FailsWithoutEffect
    && Resolved(w.Met().remote, work).value != w.ws.repo.local[work]
  }

  ghost predicate Clobbers(w: World, req: Request) {
    && req.workBranch != req.baseBranch
    && w.ws.Cloned? && req.workBranch in w.ws.repo.local
    && w.Fate() != Succeeds
    && HasRemoteBranch(w.Met(), req.workBranch).1
    && ResetMoves(w.Met().Met(), req.workBranch)
  }

  /** A branch made from HEAD is new, so it moves none. */
  lemma NewBranchKeeps(w: World, req: Request)
    requires w.ws.Cloned?
    ensures var o := CreateWorkBranch(w, req, false);
      && HistoryKept(w.ws, o.world.ws) && RefsKept(w.ws, o.world.ws)
      && (o.Ok? ==> o.world.ws.Cloned? && o.world.ws.repo.head == OnBranch(req.workBranch)
                    && req.workBranch !in w.ws.repo.local)
  {
  }

  lemma ResetKeeps(w: World, name: Name)
    requires w.ws.Cloned?
    ensures var o := CheckoutReset(w, name);
      && HistoryKept(w.ws, o.world.ws) && o.world.ws.Cloned?
      && (RefsKept(w.ws, o.world.ws) <==>
            !(name in w.ws.repo.tracking && w.Fate() != FailsWithoutEffect
              && name in w.ws.repo.local && w.ws.repo.tracking[name] != w.ws.repo.local[name]))
      && (o.Ok? ==> o.world.ws.repo.head == OnBranch(name))
      && (o.Ok? && name in w.ws.repo.local && RefsKept(w.ws, o.world.ws) ==>
            o.world.ws.repo.local == w.ws.repo.local)
  {
    var o := CheckoutReset(w, name);
    assert o.world.ws.repo.local == w.ws.repo.local
        || (name in w.ws.repo.tracking && o.world.ws.repo.local == w.ws.repo.local[name := w.ws.repo.tracking[name]]);
  }

  /** Creating keeps the history always, and the refs except where a reset moves one. */
  lemma CreateKeeps(w: World, req: Request, onRemote: bool)
    requires w.ws.Cloned?
    ensures var o := CreateWorkBranch(w, req, onRemote);
      && HistoryKept(w.ws, o.world.ws)
      && (RefsKept(w.ws, o.world.ws) <==> !(onRemote && ResetMoves(w, req.workBranch)))
      && (o.Ok? ==> o.world.ws.Cloned? && o.world.ws.repo.head == OnBranch(req.workBranch))
      && (o.Ok? && req.workBranch in w.ws.repo.local && RefsKept(w.ws, o.world.ws) ==>
            o.world.ws.repo.local == w.ws.repo.local)
  {
    if !onRemote {
      NewBranchKeeps(w, req);
    } else {
      FetchBranchKeeps(w, req.workBranch);
      var fetched := FetchBranch(w, req.workBranch);
      if fetched.Ok? {
        ResetKeeps(fetched.world, req.workBranch);
        SameBranches(w.ws, fetched.world.ws, CheckoutReset(fetched.world, req.workBranch).world.ws);
      }
    }
  }

  /** Keeping the local branches of a workspace is keeping those of one that has the same ones. */
  lemma SameBranches(a: Workspace, b: Workspace, c: Workspace)
    requires a.Cloned? && b.Cloned? && a.repo.local == b.repo.local && HistoryKept(a, b) && HistoryKept(b, c)
    ensures RefsKept(a, c) <==> RefsKept(b, c)
    ensures HistoryKept(a, c)
  {
  }

  /** Putting the work branch in place moves or deletes a local branch exactly when it clobbers one. */
  lemma SwitchKeeps(w: World, req: Request)
    requires w.ws.Cloned?
    ensures var o := SwitchToWorkBranch(w, req);
      && HistoryKept(w.ws, o.world.ws)
      && (RefsKept(w.ws, o.world.ws) <==> !Clobbers(w, req))
  {
    if req.workBranch == req.baseBranch {
      CheckoutKeeps(w, req.baseBranch);
    } else {
      var w2 := w.Met().Met();
      if HasLocalBranch(w, req.workBranch).1 {
        ResumeKeeps(w2, req.workBranch, HasRemoteBranch(w.Met(), req.workBranch).1);
      } else {
        CreateKeeps(w2, req, HasRemoteBranch(w.Met(), req.workBranch).1);
      }
    }
  }

  /** Reporting where the checkout landed changes nothing. */
  lemma ReportKeeps(w: World, req: Request)
    ensures CheckoutWorkBranch(w, req).world.ws == SwitchToWorkBranch(w, req).world.ws
    ensures CheckoutWorkBranch(w, req).Ok? ==> SwitchToWorkBranch(w, req).Ok?
  {
    var o := SwitchToWorkBranch(w, req);
    if o.Ok? {
      assert RevParseHead(o.world).world.ws == o.world.ws;
    }
  }

  lemma VerifyKeeps(w: World, req: Request)
    ensures var o := VerifyHead(w, req);
      && o.world.ws == w.ws
      && (o.Ok? ==>
            && w.ws.Cloned? && HeadCommit(w.ws.repo) == Some(o.value.headSha)
            && o.value.branch == if w.ws.repo.head.OnBranch? then w.ws.repo.head.name else "HEAD")
  {
    var o := RevParseHead(w);
    assert o.world.ws == w.ws;
    assert AbbrevRef(o.world).world.ws == w.ws;
  }

  /** A preparation that finishes went through its three parts. */
  lemma PrepareParts(w: World, req: Request)
    ensures var o := PrepareWorkspace(w, req);
      && (!Accepted(req) ==> o.world == w)
      && (Accepted(req) && CloneOrFetch(w, req).Failed? ==> o.world == CloneOrFetch(w, req).world)
      && (Accepted(req) && CloneOrFetch(w, req).Ok? ==>
            o.world.ws == SwitchToWorkBranch(CloneOrFetch(w, req).world, req).world.ws)
      && (o.Ok? ==>
            && Accepted(req) && CloneOrFetch(w, req).Ok?
            && SwitchToWorkBranch(CloneOrFetch(w, req).world, req).Ok?
            && o.world.ws.Cloned? && HeadCommit(o.world.ws.repo) == Some(o.value.headSha)
            && o.value.branch == if o.world.ws.repo.head.OnBranch? then o.world.ws.repo.head.name else "HEAD")
  {
    if Accepted(req) && CloneOrFetch(w, req).Ok? {
      var w1 := CloneOrFetch(w, req).world;
      ReportKeeps(w1, req);
      var w2 := CheckoutWorkBranch(w1, req).world;
      VerifyKeeps(w2, req);
    }
  }

  // ---------------------------------------------------------------- the whole preparation

  /** A preparation from there reaches the branches and clobbers one. */
  ghost predicate ClobbersIn(w: World, req: Request) {
    Accepted(req) && CloneOrFetch(w, req).Ok? && Clobbers(CloneOrFetch(w, req).world, req)
  }

  /**
   * Preparation preserves work. On success and on failure at any command, no commit is lost, and no
   * existing local branch is moved or deleted except in the one case `Clobbers` describes; in
   * particular never when `rev-parse` answers truthfully.
   */
  lemma PrepareKeepsLocalWork(w: World, req: Request)
    ensures var after := PrepareWorkspace(w, req).world.ws;
      && HistoryKept(w.ws, after)
      && (RefsKept(w.ws, after) <==> !ClobbersIn(w, req))
  {
    PrepareParts(w, req);
    if Accepted(req) {
      CloneOrFetchKeeps(w, req);
      var o := CloneOrFetch(w, req);
      if o.Ok? {
        SwitchKeeps(o.world, req);
        KeptTransitive(w.ws, o.world.ws, SwitchToWorkBranch(o.world, req).world.ws);
        if w.ws.Bare? {
          assert !Clobbers(o.world, req);
        }
      }
    }
  }

  /** Kept refs and kept history keep every commit that was reachable from a local branch reachable from it. */
  lemma ReachableStaysReachable(a: Workspace, b: Workspace, branch: Name, c: Commit)
    requires a.Cloned? && RefsKept(a, b) && HistoryKept(a, b) && branch in a.repo.local
    requires Reaches(a.repo.history, a.repo.local[branch], c)
    ensures Reaches(b.repo.history, b.repo.local[branch], c)
  {
    var walk :| WalkBetween(a.repo.history, a.repo.local[branch], c, walk);
    assert WalkBetween(b.repo.history, b.repo.local[branch], c, walk);
  }

  /** Where a successful preparation leaves the checkout. */
  ghost predicate LandedOn(ws: Workspace, req: Request, r: Prepared) {
    && ws.Cloned?
    && if ws.repo.head.OnBranch? then
         && ws.repo.head.name == req.workBranch == r.branch
         && req.workBranch in ws.repo.local && r.headSha == ws.repo.local[req.workBranch]
       else
         // only a base branch that is no local branch but names a commit otherwise, a tag say
         && req.workBranch == req.baseBranch && req.workBranch !in ws.repo.local
         && req.workBranch in ws.repo.revs && r.headSha == ws.repo.revs[req.workBranch] == ws.repo.head.commit
         && r.branch == "HEAD"
  }

  lemma SwitchLands(w: World, req: Request)
    requires w.ws.Cloned? && SwitchToWorkBranch(w, req).Ok?
    ensures var ws := SwitchToWorkBranch(w, req).world.ws;
      && ws.Cloned?
      && (ws.repo.head == OnBranch(req.workBranch)
          || (req.workBranch == req.baseBranch && req.workBranch !in ws.repo.local && req.workBranch in ws.repo.revs
              && ws.repo.head == Detached(ws.repo.revs[req.workBranch])))
  {
    if req.workBranch == req.baseBranch {
      CheckoutKeeps(w, req.baseBranch);
    } else if HasLocalBranch(w, req.workBranch).1 {
      ResumeKeeps(w.Met().Met(), req.workBranch, HasRemoteBranch(w.Met(), req.workBranch).1);
    } else {
      CreateKeeps(w.Met().Met(), req, HasRemoteBranch(w.Met(), req.workBranch).1);
    }
  }

  /** On success HEAD is on the work branch at its local tip, and that is what is reported. */
  lemma PrepareLands(w: World, req: Request)
    requires PrepareWorkspace(w, req).Ok?
    ensures LandedOn(PrepareWorkspace(w, req).world.ws, req, PrepareWorkspace(w, req).value)
  {
    PrepareParts(w, req);
    CloneOrFetchKeeps(w, req);
    SwitchLands(CloneOrFetch(w, req).world, req);
  }

  /**
   * HEAD ends up detached exactly if the work branch is the base branch, is no local branch of the
   * workspace that cloning or refreshing left, and names a commit there in another way, as a tag does.
   */
  lemma DetachedExactly(w: World, req: Request)
    requires PrepareWorkspace(w, req).Ok?
    ensures var ready, after := CloneOrFetch(w, req).world.ws, PrepareWorkspace(w, req).world.ws;
      && ready.Cloned? && after.Cloned?
      && (after.repo.head.Detached? <==>
            req.workBranch == req.baseBranch && req.workBranch !in ready.repo.local && req.workBranch in ready.repo.revs)
  {
    PrepareParts(w, req);
    CloneOrFetchKeeps(w, req);
    var w1 := CloneOrFetch(w, req).world;
    if req.workBranch == req.baseBranch {
      CheckoutKeeps(w1, req.baseBranch);
    } else {
      SwitchLands(w1, req);
    }
  }

  /** A turn on a tag ends that way: preparation clones the tag and reports success with no branch. */
  lemma TagLandsDetached(remote: Remote, name: Name)
    requires BranchNameAllowed(name) && name !in remote.heads && name in remote.tags
    ensures var o := PrepareWorkspace(World(Bare, remote, [], []), Request(true, name, name, true, None));
      o.Ok? && o.value == Prepared(remote.tags[name], "HEAD", []) && o.world.ws.Cloned?
      && o.world.ws.repo.head == Detached(remote.tags[name])
  {
    var w, req := World(Bare, remote, [], []), Request(true, name, name, true, None);
    OnceInPlace(w, req);
    PrepareLands(w, req);
    DetachedExactly(w, req);
  }

  /** From a workspace that already landed, putting the work branch in place again changes no local branch. */
  lemma SwitchAgain(w: World, req: Request, first: Prepared)
    requires LandedOn(w.ws, req, first) && SwitchToWorkBranch(w, req).Ok? && !Clobbers(w, req)
    ensures var ws := SwitchToWorkBranch(w, req).world.ws;
      ws.Cloned? && ws.repo.local == w.ws.repo.local
  {
    SwitchKeeps(w, req);
    if req.workBranch == req.baseBranch {
      CheckoutKeeps(w, req.baseBranch);
    } else if HasLocalBranch(w, req.workBranch).1 {
      ResumeKeeps(w.Met().Met(), req.workBranch, HasRemoteBranch(w.Met(), req.workBranch).1);
    } else {
      CreateKeeps(w.Met().Met(), req, HasRemoteBranch(w.Met(), req.workBranch).1);
    }
  }

  /** A preparation of a workspace that has landed reports the same head and branch and moves nothing. */
  lemma LandedStays(w: World, req: Request, first: Prepared)
    requires LandedOn(w.ws, req, first) && PrepareWorkspace(w, req).Ok?
    requires !Clobbers(CloneOrFetch(w, req).world, req)
    ensures var second := PrepareWorkspace(w, req);
      && second.value.headSha == first.headSha && second.value.branch == first.branch
      && second.world.ws.Cloned? && second.world.ws.repo.local == w.ws.repo.local
  {
    PrepareParts(w, req);
    PrepareLands(w, req);
    CloneOrFetchKeeps(w, req);
    var w1 := CloneOrFetch(w, req).world;
    assert LandedOn(w1.ws, req, first);
    SwitchAgain(w1, req, first);
    SwitchKeeps(w1, req);
    KeptTransitive(w.ws, w1.ws, SwitchToWorkBranch(w1, req).world.ws);
  }

  /**
   * A second successful preparation over the workspace the first left reports the same head and
   * branch and moves no local branch, whatever happened to the remote in between and whichever of the
   * two cloned, as long as it does not clobber the branch it is on.
   */
  lemma SecondRunSame(w: World, req: Request, later: World, again: Request)
    requires PrepareWorkspace(w, req).Ok? && PrepareWorkspace(later, again).Ok?
    requires later.ws == PrepareWorkspace(w, req).world.ws
    requires again.workBranch == req.workBranch && again.baseBranch == req.baseBranch
    requires !Clobbers(CloneOrFetch(later, again).world, again)
    ensures PrepareWorkspace(later, again).value.headSha == PrepareWorkspace(w, req).value.headSha
    ensures PrepareWorkspace(later, again).value.branch == PrepareWorkspace(w, req).value.branch
    ensures RefsKept(later.ws, PrepareWorkspace(later, again).world.ws)
  {
    PrepareLands(w, req);
    LandedStays(later, again, PrepareWorkspace(w, req).value);
  }

  /**
   * Without faults, a work branch that is not local yet is put in place exactly when its name stands for
   * something at the remote, or `ls-remote` answers for no branch: it also answers for one whose last
   * path components are the name, and the fetch that follows then fails. A branch that is answered for
   * starts at what its name stands for.
   */
  lemma FaultFreeCreation(w: World, req: Request)
    requires w.script == [] && w.ws.Cloned? && req.workBranch != req.baseBranch
    requires req.workBranch !in w.ws.repo.local
    ensures var o, tip := SwitchToWorkBranch(w, req), Resolved(w.remote, req.workBranch);
      && (o.Ok? <==> tip.Some? || !Answers(w.remote, req.workBranch))
      && (o.Ok? && Answers(w.remote, req.workBranch) ==>
            && o.world.ws.Cloned? && req.workBranch in o.world.ws.repo.local
            && tip == Some(o.world.ws.repo.local[req.workBranch]))
  {
  }

  /** `ls-remote` answers for every branch the remote publishes, and its name stands for something. */
  lemma Published(remote: Remote, name: Name)
    requires name in remote.heads
    ensures Answers(remote, name) && Resolved(remote, name).Some?
  {
    assert (HEADS + name)[|HEADS| - 1..] == "/" + name;
    assert TailMatches(HEADS + name, name);
  }

  /** A name that spells no part of a ref's path. */
  predicate Short(name: Name) {
    !StartsWith(name, "refs/") && !StartsWith(name, "heads/") && !StartsWith(name, "tags/")
  }

  lemma ShortResolves(remote: Remote, name: Name)
    requires Short(name)
    ensures Resolved(remote, name) == if name in remote.tags then Some(remote.tags[name])
                                      else if name in remote.heads then Some(remote.heads[name])
                                      else None
  {
    NoPath(name);
    NoPathBelow(name);
  }

  lemma NoPath(name: Name)
    ensures StartsWith(name, HEADS) || StartsWith(name, TAGS) ==> StartsWith(name, "refs/")
  {
    assert HEADS[..5] == TAGS[..5] == "refs/";
    if StartsWith(name, HEADS) {
      assert name[..|HEADS|][..5] == name[..5];
    }
    if StartsWith(name, TAGS) {
      assert name[..|TAGS|][..5] == name[..5];
    }
  }

  lemma NoPathBelow(name: Name)
    ensures StartsWith("refs/" + name, HEADS) ==> StartsWith(name, "heads/")
    ensures StartsWith("refs/" + name, TAGS) ==> StartsWith(name, "tags/")
  {
    assert HEADS[5..] == "heads/" && TAGS[5..] == "tags/";
    var full := "refs/" + name;
    if StartsWith(full, HEADS) {
      assert full[..|HEADS|][5..] == name[..6];
    }
    if StartsWith(full, TAGS) {
      assert full[..|TAGS|][5..] == name[..5];
    }
  }

  /**
   * A work branch the remote publishes is made where the remote has it exactly if the remote has no tag
   * of that name on another commit: the tag would be fetched instead.
   */
  lemma CreatedWherePublished(w: World, req: Request)
    requires w.script == [] && w.ws.Cloned? && req.workBranch != req.baseBranch
    requires req.workBranch !in w.ws.repo.local && req.workBranch in w.remote.heads && Short(req.workBranch)
    ensures var o := SwitchToWorkBranch(w, req);
      && o.Ok? && o.world.ws.Cloned? && req.workBranch in o.world.ws.repo.local
      && (o.world.ws.repo.local[req.workBranch] == w.remote.heads[req.workBranch]
          <==> (req.workBranch in w.remote.tags ==> w.remote.tags[req.workBranch] == w.remote.heads[req.workBranch]))
  {
    Published(w.remote, req.workBranch);
    ShortResolves(w.remote, req.workBranch);
    FaultFreeCreation(w, req);
  }

  // ---------------------------------------------------------------- the exception

  /** Runs in which the first command succeeds, the probe for the local branch is killed, and all others succeed. */
  function WithKilledProbe(repo: Repo, remote: Remote): World {
    World(Cloned(repo), remote, [Moment(Succeeds, remote), Moment(FailsWithoutEffect, remote)], [])
  }

  /**
   * The exception is real, and every workspace whose work branch is not where the remote has it meets it:
   * a `rev-parse` that is killed reads as "no local branch", and the reset discards what the branch had.
   */
  lemma KilledProbeMovesBranch(repo: Repo, remote: Remote, req: Request)
    requires Accepted(req) && !req.clone && req.workBranch != req.baseBranch
    requires req.workBranch in repo.local && Answers(remote, req.workBranch)
    requires Resolved(remote, req.workBranch).Some?
    requires Resolved(remote, req.workBranch).value != repo.local[req.workBranch]
    ensures var w := WithKilledProbe(repo, remote);
      !RefsKept(w.ws, PrepareWorkspace(w, req).world.ws)
  {
    var w := WithKilledProbe(repo, remote);
    var w1 := CloneOrFetch(w, req).world;
    assert w1 == World(Cloned(repo), remote, [Moment(FailsWithoutEffect, remote)], []);
    assert Clobbers(w1, req);
    PrepareKeepsLocalWork(w, req);
  }

  /** Such a preparation reports success: here `work` is at c1 and the remote has it at c0. */
  lemma KilledProbeSucceeds()
    ensures exists repo, remote, req :: DiscardedInSilence(repo, remote, req)
  {
    var history: History := map["c0" := {}, "c1" := {"c0"}];
    var remote := Remote(history, map["work" := "c0"], map[]);
    var repo := Repo(history, map["work" := "c1"], map[], map[], OnBranch("work"));
    var req := Request(true, "main", "work", false, None);
    Published(remote, "work");
    KilledProbeMovesBranch(repo, remote, req);
    KilledProbeFinishes(repo, remote, req);
    assert DiscardedInSilence(repo, remote, req);
  }

  ghost predicate DiscardedInSilence(repo: Repo, remote: Remote, req: Request) {
    var o := PrepareWorkspace(WithKilledProbe(repo, remote), req);
    o.Ok? && !RefsKept(Cloned(repo), o.world.ws)
  }

  lemma KilledProbeFinishes(repo: Repo, remote: Remote, req: Request)
    requires Accepted(req) && !req.clone && req.workBranch != req.baseBranch
    requires Answers(remote, req.workBranch) && Resolved(remote, req.workBranch).Some?
    ensures PrepareWorkspace(WithKilledProbe(repo, remote), req).Ok?
  {
    var w := WithKilledProbe(repo, remote);
    var w1 := CloneOrFetch(w, req).world;
    assert w1 == World(Cloned(repo), remote, [Moment(FailsWithoutEffect, remote)], []);
    OnceInPlace(w, req);
  }

  lemma ReportSucceeds(w: World, req: Request)
    requires SwitchToWorkBranch(w, req).Ok? && SwitchToWorkBranch(w, req).world.script == []
    ensures var o := SwitchToWorkBranch(w, req);
      && (CheckoutWorkBranch(w, req).Ok? <==> o.world.ws.Cloned? && HeadCommit(o.world.ws.repo).Some?)
      && (CheckoutWorkBranch(w, req).Ok? ==> CheckoutWorkBranch(w, req).world.script == [])
  {
  }

  lemma VerifySucceeds(w: World, req: Request)
    requires w.script == [] && w.ws.Cloned? && HeadCommit(w.ws.repo).Some?
    ensures VerifyHead(w, req).Ok? && VerifyHead(w, req).world.script == []
  {
  }

  /** Once the branch is in place and nothing fails any more, preparation succeeds exactly if HEAD names a commit. */
  lemma OnceInPlace(w: World, req: Request)
    requires Accepted(req) && CloneOrFetch(w, req).Ok?
    requires var o := SwitchToWorkBranch(CloneOrFetch(w, req).world, req); o.Ok? && o.world.script == []
    ensures var ws := SwitchToWorkBranch(CloneOrFetch(w, req).world, req).world.ws;
      PrepareWorkspace(w, req).Ok? <==> ws.Cloned? && HeadCommit(ws.repo).Some?
  {
    var w1 := CloneOrFetch(w, req).world;
    ReportSucceeds(w1, req);
    ReportKeeps(w1, req);
    var o := CheckoutWorkBranch(w1, req);
    if o.Ok? {
      VerifySucceeds(o.world, req);
    }
  }
}

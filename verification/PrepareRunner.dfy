/** Preparation as it runs: the git commands in the order the source issues them, over one runner. */
module PrepareRunner {
  import opened Common
  import opened Git
  import opened Divergence
  import opened Prepare
  import opened PrepareProofs
  import opened PrepareReports

  method RunCloneOrFetch(git: GitRunner, req: Request) returns (r: Reply<()>)
    modifies git
    ensures Pack(git.world, r) == CloneOrFetch(old(git.world), req)
  {
    var alreadyCloned := git.AskWorkTree();
    if !req.clone {
      return if alreadyCloned then Answer(()) else Fault(NoRepository);
    }
    if alreadyCloned {
      r := git.Finish(Emit(git.world, Refreshing));
      if r.Answer? {
        r := git.Finish(FetchPrune(git.world));
      }
      return;
    }
    r := git.Finish(Emit(git.world, Cloning(req.baseBranch)));
    if r.Answer? {
      r := git.Finish(Clone(git.world, req.baseBranch));
    }
  }

  method RunMeasureDivergence(git: GitRunner, branch: Name) returns (r: Reply<BranchDivergence>)
    modifies git
    ensures Pack(git.world, r) == MeasureDivergence(old(git.world), branch)
  {
    var ws := git.world.ws;
    if ws.Bare? || branch !in ws.repo.local || branch !in ws.repo.tracking {
      git.world := git.world.Met();
      return Fault(GitFailed);
    }
    var local, remote := ws.repo.local[branch], ws.repo.tracking[branch];
    var ahead := git.CountRevs(remote, local);
    if ahead.Fault? {
      return Fault(ahead.failure);
    }
    var behind := git.CountRevs(local, remote);
    r := if behind.Fault? then Fault(behind.failure) else Answer(BranchDivergence(ahead.value, behind.value));
  }

  method RunCreateWorkBranch(git: GitRunner, req: Request, onRemote: bool) returns (r: Reply<WorkBranch>)
    modifies git
    ensures Pack(git.world, r) == CreateWorkBranch(old(git.world), req, onRemote)
  {
    var done: Reply<()>;
    if !onRemote {
      done := git.Finish(CheckoutNew(git.world, req.workBranch));
      return if done.Fault? then Fault(done.failure)
             else Answer(WorkBranch(Created(req.workBranch, req.baseBranch), None));
    }
    done := git.Finish(FetchBranch(git.world, req.workBranch));
    if done.Answer? {
      done := git.Finish(CheckoutReset(git.world, req.workBranch));
    }
    r := if done.Fault? then Fault(done.failure) else Answer(WorkBranch(CheckedOut(req.workBranch), None));
  }

  method RunResumeWorkBranch(git: GitRunner, branch: Name, onRemote: bool) returns (r: Reply<WorkBranch>)
    modifies git
    ensures Pack(git.world, r) == ResumeWorkBranch(old(git.world), branch, onRemote)
  {
    var done := git.Finish(Checkout(git.world, branch));
    if done.Fault? {
      return Fault(done.failure);
    }
    if !onRemote {
      return Answer(WorkBranch(Resumed(branch), None));
    }
    done := git.Finish(FetchBranch(git.world, branch));
    if done.Fault? {
      return Fault(done.failure);
    }
    var divergence := RunMeasureDivergence(git, branch);
    r := if divergence.Fault? then Fault(divergence.failure)
         else Answer(WorkBranch(Resumed(branch), DivergenceNote(divergence.value)));
  }

  method RunSwitchToWorkBranch(git: GitRunner, req: Request) returns (r: Reply<WorkBranch>)
    modifies git
    ensures Pack(git.world, r) == SwitchToWorkBranch(old(git.world), req)
  {
    if req.workBranch == req.baseBranch {
      var done := git.Finish(Checkout(git.world, req.baseBranch));
      return if done.Fault? then Fault(done.failure) else Answer(WorkBranch(OnBase(req.baseBranch), None));
    }
    var local := git.AskLocalBranch(req.workBranch);
    var onRemote := git.AskRemoteBranch(req.workBranch);
    if local {
      r := RunResumeWorkBranch(git, req.workBranch, onRemote);
    } else {
      r := RunCreateWorkBranch(git, req, onRemote);
    }
  }

  method RunCheckoutWorkBranch(git: GitRunner, req: Request) returns (r: Reply<Option<Note>>)
    modifies git
    ensures Pack(git.world, r) == CheckoutWorkBranch(old(git.world), req)
  {
    var outcome := RunSwitchToWorkBranch(git, req);
    if outcome.Fault? {
      return Fault(outcome.failure);
    }
    var sha := git.Finish(RevParseHead(git.world));
    if sha.Fault? {
      return Fault(sha.failure);
    }
    var done := git.Finish(Emit(git.world, Landed(outcome.value.summary, sha.value)));
    if done.Answer? && outcome.value.note.Some? {
      done := git.Finish(Emit(git.world, Finding(outcome.value.note.value)));
    }
    r := if done.Fault? then Fault(done.failure) else Answer(outcome.value.note);
  }

  method RunVerifyHead(git: GitRunner, req: Request) returns (r: Reply<Prepared>)
    modifies git
    ensures Pack(git.world, r) == VerifyHead(old(git.world), req)
    ensures r.Answer? ==> HeadNotes(req, r.value.headSha, r.value.notes)
  {
    var headSha := git.Finish(RevParseHead(git.world));
    if headSha.Fault? {
      return Fault(headSha.failure);
    }
    var branch := git.Finish(AbbrevRef(git.world));
    if branch.Fault? {
      return Fault(branch.failure);
    }
    if req.expectedHead.None? || req.expectedHead.value == headSha.value {
      return Answer(Prepared(headSha.value, branch.value, []));
    }
    var note := HeadMoved(req.expectedHead.value, headSha.value);
    var done := git.Finish(Emit(git.world, Finding(note)));
    r := if done.Fault? then Fault(done.failure) else Answer(Prepared(headSha.value, branch.value, [note]));
  }

  /**
   * The whole preparation. However it ends no commit is lost, and the local branches stay except where
   * it clobbers one; on success the checkout is where `LandedOn` says, and the notes and the events tell
   * what was found.
   */
  method RunPrepare(git: GitRunner, req: Request) returns (r: Reply<Prepared>)
    modifies git
    ensures Pack(git.world, r) == PrepareWorkspace(old(git.world), req)
    ensures HistoryKept(old(git.world.ws), git.world.ws)
    ensures RefsKept(old(git.world.ws), git.world.ws) <==> !ClobbersIn(old(git.world), req)
    ensures r.Answer? ==> LandedOn(git.world.ws, req, r.value)
    ensures r.Answer? ==> NotesTell(CloneOrFetch(old(git.world), req).world, git.world.ws, req, r.value)
    ensures r.Answer? ==>
      git.world.events == old(git.world).events
                        + Story(old(git.world), req, CloneOrFetch(old(git.world), req).world, r.value)
    ensures r == Fault(Refused) <==> !Accepted(req)
  {
    PrepareKeepsLocalWork(git.world, req);
    RefusesExactly(git.world, req);
    if PrepareWorkspace(git.world, req).Ok? {
      PrepareLands(git.world, req);
      ReportsWhatItFound(git.world, req);
    }
    if !req.urlAllowed || !BranchNameAllowed(req.baseBranch) || !BranchNameAllowed(req.workBranch) {
      return Fault(Refused);
    }
    var ready := RunCloneOrFetch(git, req);
    if ready.Fault? {
      return Fault(ready.failure);
    }
    var note := RunCheckoutWorkBranch(git, req);
    if note.Fault? {
      return Fault(note.failure);
    }
    var verified := RunVerifyHead(git, req);
    if verified.Fault? {
      return Fault(verified.failure);
    }
    var done := git.Finish(Emit(git.world, PrepareDone(verified.value.headSha, verified.value.branch)));
    r := if done.Fault? then Fault(done.failure)
         else Answer(Prepared(verified.value.headSha, verified.value.branch,
                              if note.value.None? then verified.value.notes
                              else [note.value.value] + verified.value.notes));
  }
}

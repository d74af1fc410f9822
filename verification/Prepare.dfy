/**
 * Workspace preparation: clone or refresh the repository, put the work branch in place, and report
 * where the checkout landed.
 */
module Prepare {
  import opened Common
  import opened Git
  import opened Divergence

  /** The repository and preparation sections of a turn request, and the verdict on its URL. */
  datatype Request = Request(urlAllowed: bool, baseBranch: Name, workBranch: Name, clone: bool,
                             expectedHead: Option<Commit>)

  datatype WorkBranch = WorkBranch(summary: Summary, note: Option<Note>)

  datatype Prepared = Prepared(headSha: Commit, branch: Name, notes: seq<Note>)

  /** The branch names this lane passes to git: none begins with a dash. */
  predicate BranchNameAllowed(name: Name) {
    name != "" && IsAlphanumeric(name[0])
    && forall i :: 0 < i < |name| ==> IsAlphanumeric(name[i]) || name[i] in {'.', '_', '/', '-'}
  }

  function CloneOrFetch(w: World, req: Request): Try<()> {
    var (w1, alreadyCloned) := IsWorkTree(w);
    if !req.clone then
      if alreadyCloned then Ok(w1, ()) else Failed(w1, NoRepository)
    else if alreadyCloned then
      var (w2, _) :- Emit(w1, Refreshing);
      FetchPrune(w2)
    else
      var (w2, _) :- Emit(w1, Cloning(req.baseBranch));
      Clone(w2, req.baseBranch)
  }

  /** `rev-list` fails on a name that does not resolve. */
  ghost function MeasureDivergence(w: World, branch: Name): Try<BranchDivergence> {
    if w.ws.Bare? || branch !in w.ws.repo.local || branch !in w.ws.repo.tracking then Failed(w.Met(), GitFailed)
    else
      var local, remote := w.ws.repo.local[branch], w.ws.repo.tracking[branch];
      var (w1, ahead) :- RevList(w, remote, local);
      var (w2, behind) :- RevList(w1, local, remote);
      Ok(w2, BranchDivergence(ahead, behind))
  }

  function CreateWorkBranch(w: World, req: Request, onRemote: bool): Try<WorkBranch> {
    if !onRemote then
      var (w1, _) :- CheckoutNew(w, req.workBranch);
      Ok(w1, WorkBranch(Created(req.workBranch, req.baseBranch), None))
    else
      var (w1, _) :- FetchBranch(w, req.workBranch);
      var (w2, _) :- CheckoutReset(w1, req.workBranch);
      Ok(w2, WorkBranch(CheckedOut(req.workBranch), None))
  }

  ghost function ResumeWorkBranch(w: World, branch: Name, onRemote: bool): Try<WorkBranch> {
    var (w1, _) :- Checkout(w, branch);
    if !onRemote then Ok(w1, WorkBranch(Resumed(branch), None))
    else
      var (w2, _) :- FetchBranch(w1, branch);
      var (w3, divergence) :- MeasureDivergence(w2, branch);
      Ok(w3, WorkBranch(Resumed(branch), DivergenceNote(divergence)))
  }

  ghost function SwitchToWorkBranch(w: World, req: Request): Try<WorkBranch> {
    if req.workBranch == req.baseBranch then
      var (w1, _) :- Checkout(w, req.baseBranch);
      Ok(w1, WorkBranch(OnBase(req.baseBranch), None))
    else
      var (w1, local) := HasLocalBranch(w, req.workBranch);
      var (w2, onRemote) := HasRemoteBranch(w1, req.workBranch);
      if local then ResumeWorkBranch(w2, req.workBranch, onRemote) else CreateWorkBranch(w2, req, onRemote)
  }

  ghost function CheckoutWorkBranch(w: World, req: Request): Try<Option<Note>> {
    var (w1, outcome) :- SwitchToWorkBranch(w, req);
    var (w2, sha) :- RevParseHead(w1);
    var (w3, _) :- Emit(w2, Landed(outcome.summary, sha));
    if outcome.note.None? then Ok(w3, None)
    else
      var (w4, _) :- Emit(w3, Finding(outcome.note.value));
      Ok(w4, outcome.note)
  }

  function VerifyHead(w: World, req: Request): Try<Prepared> {
    var (w1, headSha) :- RevParseHead(w);
    var (w2, branch) :- AbbrevRef(w1);
    if req.expectedHead.None? || req.expectedHead.value == headSha then Ok(w2, Prepared(headSha, branch, []))
    else
      var note := HeadMoved(req.expectedHead.value, headSha);
      var (w3, _) :- Emit(w2, Finding(note));
      Ok(w3, Prepared(headSha, branch, [note]))
  }

  ghost function PrepareWorkspace(w: World, req: Request): Try<Prepared> {
    if !req.urlAllowed || !BranchNameAllowed(req.baseBranch) || !BranchNameAllowed(req.workBranch) then
      Failed(w, Refused)
    else
      var (w1, _) :- CloneOrFetch(w, req);
      var (w2, note) :- CheckoutWorkBranch(w1, req);
      var (w3, verified) :- VerifyHead(w2, req);
      var (w4, _) :- Emit(w3, PrepareDone(verified.headSha, verified.branch));
      Ok(w4, Prepared(verified.headSha, verified.branch,
                      if note.None? then verified.notes else [note.value] + verified.notes))
  }
}

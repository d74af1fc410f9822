/**
 * What preparation reports: the notes it returns, the events it publishes about itself, why it refuses,
 * and when a preparation that meets no fault succeeds.
 */
module PrepareReports {
  import opened Common
  import opened Git
  import opened Divergence
  import opened Prepare
  import opened PrepareProofs

  // ---------------------------------------------------------------- the notes

  /** The work branch is found in the workspace, so that it is switched to as it is. */
  predicate Resumes(ready: World, req: Request) {
    && req.workBranch != req.baseBranch
    && ready.ws.Cloned? && req.workBranch in ready.ws.repo.local && ready.Fate() == Succeeds
  }

  /** The remote answers for the work branch when it is asked, after the workspace was. */
  predicate IsPublished(ready: World, req: Request) {
    ready.Met().Fate() != FailsWithoutEffect && Answers(ready.Met().Met().remote, req.workBranch)
  }

  /** What is found about a branch that was resumed and its published counterpart, from the tips as they are left. */
  ghost predicate ResumeNotes(ready: World, after: Workspace, req: Request, notes: seq<Note>) {
    if Resumes(ready, req) && IsPublished(ready, req) then
      && after.Cloned? && req.workBranch in after.repo.local && req.workBranch in after.repo.tracking
      && after.repo.local[req.workBranch] == ready.ws.repo.local[req.workBranch]
      && var found := DivergenceNote(Measured(after.repo.history, after.repo.local[req.workBranch],
                                              after.repo.tracking[req.workBranch]));
         if found.Some? then notes == [found.value] else notes == []
    else notes == []
  }

  /** What is found about the commit the host expected. */
  predicate HeadNotes(req: Request, headSha: Commit, notes: seq<Note>) {
    if req.expectedHead.Some? && req.expectedHead.value != headSha then notes == [HeadMoved(req.expectedHead.value, headSha)]
    else notes == []
  }

  /** The notes of a preparation: those about the resumed branch, and then the one about the expected commit. */
  ghost predicate NotesTell(ready: World, after: Workspace, req: Request, r: Prepared) {
    exists found, moved ::
      ResumeNotes(ready, after, req, found) && HeadNotes(req, r.headSha, moved) && r.notes == found + moved
  }

  // ---------------------------------------------------------------- the events

  function Findings(notes: seq<Note>): seq<PrepareEvent> {
    seq(|notes|, i requires 0 <= i < |notes| => Finding(notes[i]))
  }

  /** What is said about bringing the repository up to date. */
  function Opening(w: World, req: Request): seq<PrepareEvent> {
    if !req.clone then []
    else if w.ws.Cloned? && w.Fate() == Succeeds then [Refreshing]
    else [Cloning(req.baseBranch)]
  }

  /** How the work branch came to be where it is. */
  function Arrival(ready: World, req: Request): Summary {
    if req.workBranch == req.baseBranch then OnBase(req.baseBranch)
    else if Resumes(ready, req) then Resumed(req.workBranch)
    else if IsPublished(ready, req) then CheckedOut(req.workBranch)
    else Created(req.workBranch, req.baseBranch)
  }

  /** The events of a preparation that succeeded, in order. */
  function Story(w: World, req: Request, ready: World, r: Prepared): seq<PrepareEvent> {
    Opening(w, req) + [Landed(Arrival(ready, req), r.headSha)] + Findings(r.notes) + [PrepareDone(r.headSha, r.branch)]
  }

  // ---------------------------------------------------------------- that it is what is reported

  lemma OpensWith(w: World, req: Request)
    requires CloneOrFetch(w, req).Ok?
    ensures CloneOrFetch(w, req).world.events == w.events + Opening(w, req)
  {
    assert w.events + [] == w.events;
  }

  lemma ResumeSays(w: World, branch: Name, onRemote: bool)
    requires ResumeWorkBranch(w, branch, onRemote).Ok?
    ensures var o := ResumeWorkBranch(w, branch, onRemote); o.world.events == w.events && o.value.summary == Resumed(branch)
  {
    var w1 := Checkout(w, branch).world;
    assert w1.events == w.events;
    if onRemote {
      var w2 := FetchBranch(w1, branch).world;
      assert w2.events == w.events;
      MeasureSays(w2, branch);
    }
  }

  lemma MeasureSays(w: World, branch: Name)
    ensures MeasureDivergence(w, branch).world.events == w.events
  {
  }

  lemma CreateSays(w: World, req: Request, onRemote: bool)
    requires CreateWorkBranch(w, req, onRemote).Ok?
    ensures var o := CreateWorkBranch(w, req, onRemote);
      && o.world.events == w.events && o.value.note.None?
      && o.value.summary == if onRemote then CheckedOut(req.workBranch) else Created(req.workBranch, req.baseBranch)
  {
  }

  /** Putting the work branch in place says nothing itself; what it found is what the tips show. */
  lemma SwitchSays(w: World, req: Request)
    requires w.ws.Cloned? && SwitchToWorkBranch(w, req).Ok?
    ensures var o := SwitchToWorkBranch(w, req);
      && o.world.events == w.events && o.value.summary == Arrival(w, req)
      && ResumeNotes(w, o.world.ws, req, if o.value.note.Some? then [o.value.note.value] else [])
  {
    if req.workBranch != req.baseBranch {
      var w2, onRemote := w.Met().Met(), HasRemoteBranch(w.Met(), req.workBranch).1;
      assert onRemote == IsPublished(w, req);
      if HasLocalBranch(w, req.workBranch).1 {
        ResumeSays(w2, req.workBranch, onRemote);
        ResumeKeeps(w2, req.workBranch, onRemote);
      } else {
        CreateSays(w2, req, onRemote);
      }
    }
  }

  lemma EmitTells(w: World, e: PrepareEvent)
    ensures Emit(w, e).world.ws == w.ws && Emit(w, e).world.events == w.events + [e]
  {
  }

  lemma HeadTells(w: World)
    requires RevParseHead(w).Ok?
    ensures var o := RevParseHead(w);
      o.world.ws == w.ws && o.world.events == w.events && w.ws.Cloned? && HeadCommit(w.ws.repo) == Some(o.value)
  {
  }

  /** Whatever putting the branch in place found is told after where the checkout landed. */
  lemma LandingTells(w: World, req: Request)
    requires CheckoutWorkBranch(w, req).Ok?
    ensures var o, switched := CheckoutWorkBranch(w, req), SwitchToWorkBranch(w, req);
      && switched.Ok? && o.world.ws == switched.world.ws && o.value == switched.value.note
      && o.world.ws.Cloned? && HeadCommit(o.world.ws.repo).Some?
      && o.world.events == switched.world.events + [Landed(switched.value.summary, HeadCommit(o.world.ws.repo).value)]
                           + if o.value.Some? then [Finding(o.value.value)] else []
  {
    var switched := SwitchToWorkBranch(w, req);
    HeadTells(switched.world);
    var read := RevParseHead(switched.world);
    var landed := Landed(switched.value.summary, read.value);
    EmitTells(read.world, landed);
    if switched.value.note.Some? {
      EmitTells(Emit(read.world, landed).world, Finding(switched.value.note.value));
    }
  }

  lemma CheckoutSays(w: World, req: Request)
    requires w.ws.Cloned? && CheckoutWorkBranch(w, req).Ok?
    ensures var o, switched := CheckoutWorkBranch(w, req), SwitchToWorkBranch(w, req);
      && switched.Ok? && o.world.ws == switched.world.ws && o.value == switched.value.note
      && o.world.ws.Cloned? && HeadCommit(o.world.ws.repo).Some?
      && o.world.events == w.events + [Landed(Arrival(w, req), HeadCommit(o.world.ws.repo).value)]
                           + Findings(if o.value.Some? then [o.value.value] else [])
  {
    LandingTells(w, req);
    SwitchSays(w, req);
    var note := CheckoutWorkBranch(w, req).value;
    assert Findings(if note.Some? then [note.value] else []) == if note.Some? then [Finding(note.value)] else [];
  }

  lemma VerifySays(w: World, req: Request)
    requires VerifyHead(w, req).Ok?
    ensures var o := VerifyHead(w, req);
      o.world.events == w.events + Findings(o.value.notes) && HeadNotes(req, o.value.headSha, o.value.notes)
  {
    assert w.events + Findings([]) == w.events;
  }

  lemma FindingsInParts(a: seq<Note>, b: seq<Note>)
    ensures Findings(a + b) == Findings(a) + Findings(b)
  {
  }

  /** A preparation that succeeds puts together what its three parts say. */
  lemma PrepareSays(w: World, req: Request)
    requires PrepareWorkspace(w, req).Ok?
    ensures CloneOrFetch(w, req).Ok? && CheckoutWorkBranch(CloneOrFetch(w, req).world, req).Ok?
    ensures var checked, o := CheckoutWorkBranch(CloneOrFetch(w, req).world, req), PrepareWorkspace(w, req);
      && VerifyHead(checked.world, req).Ok?
      && var verified := VerifyHead(checked.world, req);
         && o.value.headSha == verified.value.headSha && o.value.branch == verified.value.branch
         && o.value.notes == (if checked.value.Some? then [checked.value.value] else []) + verified.value.notes
         && o.world.events == verified.world.events + [PrepareDone(o.value.headSha, o.value.branch)]
  {
    var verified := VerifyHead(CheckoutWorkBranch(CloneOrFetch(w, req).world, req).world, req);
    assert [] + verified.value.notes == verified.value.notes;
  }

  lemma InOneLine<T>(start: seq<T>, opening: seq<T>, landed: seq<T>, found: seq<T>, moved: seq<T>, done: seq<T>)
    ensures (((start + opening) + landed + found) + moved) + done == start + (opening + landed + (found + moved) + done)
  {
  }

  /**
   * Of a preparation that succeeds the notes say what was found, and the channel tells it in order: the
   * refresh or the clone, where the checkout landed, each note, and the commit and branch it is done at.
   */
  lemma ReportsWhatItFound(w: World, req: Request)
    requires PrepareWorkspace(w, req).Ok?
    ensures var ready, o := CloneOrFetch(w, req).world, PrepareWorkspace(w, req);
      NotesTell(ready, o.world.ws, req, o.value) && o.world.events == w.events + Story(w, req, ready, o.value)
  {
    PrepareSays(w, req);
    PrepareParts(w, req);
    CloneOrFetchKeeps(w, req);
    OpensWith(w, req);
    var ready := CloneOrFetch(w, req).world;
    CheckoutSays(ready, req);
    SwitchSays(ready, req);
    var checked := CheckoutWorkBranch(ready, req);
    VerifySays(checked.world, req);
    var verified, o := VerifyHead(checked.world, req), PrepareWorkspace(w, req);
    var found := if checked.value.Some? then [checked.value.value] else [];
    FindingsInParts(found, verified.value.notes);
    InOneLine(w.events, Opening(w, req), [Landed(Arrival(ready, req), o.value.headSha)], Findings(found),
              Findings(verified.value.notes), [PrepareDone(o.value.headSha, o.value.branch)]);
    assert ResumeNotes(ready, o.world.ws, req, found) && HeadNotes(req, o.value.headSha, verified.value.notes);
  }

  lemma FoundExactly(ready: World, after: Workspace, req: Request, found: seq<Note>)
    requires ResumeNotes(ready, after, req, found)
    requires Resumes(ready, req) && IsPublished(ready, req) ==> Comparable(after, req.workBranch)
    ensures |found| <= 1 && (found != [] ==> !found[0].HeadMoved?)
    ensures found != [] <==> && Resumes(ready, req) && IsPublished(ready, req)
                             && after.repo.tracking[req.workBranch] != ready.ws.repo.local[req.workBranch]
  {
    if Resumes(ready, req) && IsPublished(ready, req) {
      NoteIsExact(after.repo.history, after.repo.local[req.workBranch], after.repo.tracking[req.workBranch]);
    }
  }

  lemma OfTheTwo(found: seq<Note>, moved: seq<Note>)
    requires |found| <= 1 && (found != [] ==> !found[0].HeadMoved?)
    requires |moved| <= 1 && (moved != [] ==> moved[0].HeadMoved?)
    ensures (exists note :: note in found + moved && !note.HeadMoved?) <==> found != []
    ensures (exists note :: note in found + moved && note.HeadMoved?) <==> moved != []
  {
    if found != [] {
      assert found[0] in found + moved;
    }
    if moved != [] {
      assert moved[0] in found + moved;
    }
  }

  /**
   * Which notes there are, on an acyclic history: one about the branch exactly if it was resumed and its
   * published counterpart is at another commit, and one about HEAD exactly if another commit was expected.
   */
  lemma NotesExactly(w: World, req: Request)
    requires PrepareWorkspace(w, req).Ok?
    requires var ready, after := CloneOrFetch(w, req).world, PrepareWorkspace(w, req).world.ws;
      Resumes(ready, req) && IsPublished(ready, req) ==> Comparable(after, req.workBranch)
    ensures var ready, o := CloneOrFetch(w, req).world, PrepareWorkspace(w, req);
      && ((exists note :: note in o.value.notes && !note.HeadMoved?)
          <==> && Resumes(ready, req) && IsPublished(ready, req)
               && o.world.ws.repo.tracking[req.workBranch] != ready.ws.repo.local[req.workBranch])
      && ((exists note :: note in o.value.notes && note.HeadMoved?)
          <==> req.expectedHead.Some? && req.expectedHead.value != o.value.headSha)
      && |o.value.notes| <= 2
  {
    ReportsWhatItFound(w, req);
    var ready, o := CloneOrFetch(w, req).world, PrepareWorkspace(w, req);
    var found, moved :| ResumeNotes(ready, o.world.ws, req, found) && HeadNotes(req, o.value.headSha, moved)
                        && o.value.notes == found + moved;
    FoundExactly(ready, o.world.ws, req, found);
    OfTheTwo(found, moved);
  }

  // ---------------------------------------------------------------- why it fails, and when it succeeds

  /** A request is refused before anything is done exactly if its URL or a branch name is; a missing repository is named. */
  lemma RefusesExactly(w: World, req: Request)
    ensures var o := PrepareWorkspace(w, req);
      && (o.Failed? && o.failure == Refused <==> !Accepted(req))
      && (o.Failed? && o.failure == NoRepository <==> Accepted(req) && !req.clone && !(w.ws.Cloned? && w.Fate() == Succeeds))
      && (o.Failed? && o.failure == Refused ==> o.world == w)
  {
    if Accepted(req) && CloneOrFetch(w, req).Ok? {
      var w1 := CloneOrFetch(w, req).world;
      CheckoutFailsInGit(w1, req);
      if CheckoutWorkBranch(w1, req).Ok? {
        VerifyFailsInGit(CheckoutWorkBranch(w1, req).world, req);
      }
    }
  }

  lemma SwitchFailsInGit(w: World, req: Request)
    ensures var o := SwitchToWorkBranch(w, req); o.Failed? ==> o.failure == GitFailed
  {
    if req.workBranch != req.baseBranch {
      var w2, onRemote := w.Met().Met(), HasRemoteBranch(w.Met(), req.workBranch).1;
      ResumeFailsInGit(w2, req.workBranch, onRemote);
    }
  }

  lemma CheckoutFailsInGit(w: World, req: Request)
    ensures var o := CheckoutWorkBranch(w, req); o.Failed? ==> o.failure == GitFailed || o.failure == WriteFailed
  {
    SwitchFailsInGit(w, req);
  }

  lemma ResumeFailsInGit(w: World, branch: Name, onRemote: bool)
    ensures var o := ResumeWorkBranch(w, branch, onRemote); o.Failed? ==> o.failure == GitFailed
  {
  }

  lemma VerifyFailsInGit(w: World, req: Request)
    ensures var o := VerifyHead(w, req); o.Failed? ==> o.failure == GitFailed || o.failure == WriteFailed
  {
  }

  /** What would make git read a name as an option, as part of a refspec or a revision, or as two words. */
  const NOT_IN_A_NAME := {' ', '\t', '\n', ':', '+', '~', '^', '*', '?', '[', '\\', '@', '{'}

  /** An accepted name begins with none of a dash, a dot and a slash, and holds nothing that git reads otherwise. */
  lemma AcceptedNamesArePlain(name: Name)
    requires BranchNameAllowed(name)
    ensures name != "" && name[0] !in {'-', '.', '/', '_'} && forall c :: c in name ==> c !in NOT_IN_A_NAME
  {
    forall c | c in name
      ensures c !in NOT_IN_A_NAME
    {
      var i :| 0 <= i < |name| && name[i] == c;
    }
  }

  /** Any name that begins with a letter or digit is accepted as far as it goes on in letters, digits and four marks. */
  lemma AcceptedGrows(name: Name, c: char)
    requires name != ""
    ensures BranchNameAllowed([c]) <==> IsAlphanumeric(c)
    ensures BranchNameAllowed(name + [c]) <==> BranchNameAllowed(name) && (IsAlphanumeric(c) || c in {'.', '_', '/', '-'})
  {
    var more := name + [c];
    assert more[|name|] == c && more[..|name|] == name;
    assert forall i :: 0 <= i < |name| ==> more[i] == name[i];
  }

  /** The repository is there, or it is to be cloned and the remote has the base branch or a tag of its name. */
  predicate Obtainable(w: World, req: Request) {
    w.ws.Cloned? || (req.clone && (req.baseBranch in w.remote.heads || req.baseBranch in w.remote.tags))
  }

  /**
   * The work branch can be put in place: a base branch that names a commit, or a branch whose name stands
   * for something at the remote if the remote answers for it, and otherwise is there or can start at HEAD.
   */
  predicate Placeable(ws: Workspace, remote: Remote, req: Request) {
    && ws.Cloned?
    && var r, work := ws.repo, req.workBranch;
       if work == req.baseBranch then work in r.local || work in r.revs || work in r.tracking
       else if Answers(remote, work) then Resolved(remote, work).Some?
       else work in r.local || HeadCommit(r).Some?
  }

  lemma ObtainsExactly(w: World, req: Request)
    requires w.script == []
    ensures var o := CloneOrFetch(w, req);
      && (o.Ok? <==> Obtainable(w, req))
      && o.world.script == [] && o.world.remote == w.remote
  {
  }

  lemma PlacesExactly(w: World, req: Request)
    requires w.script == [] && w.ws.Cloned?
    ensures var o := SwitchToWorkBranch(w, req);
      && (o.Ok? ==> o.world.script == [] && o.world.ws.Cloned?)
      && (o.Ok? && HeadCommit(o.world.ws.repo).Some? <==> Placeable(w.ws, w.remote, req))
  {
    if req.workBranch != req.baseBranch && req.workBranch in w.ws.repo.local {
      ResumesExactly(w, req.workBranch);
    }
  }

  lemma ResumesExactly(w: World, branch: Name)
    requires w.script == [] && w.ws.Cloned? && branch in w.ws.repo.local
    ensures ResumeWorkBranch(w, branch, false).Ok?
    ensures ResumeWorkBranch(w, branch, true).Ok? <==> Resolved(w.remote, branch).Some?
    ensures forall onRemote :: ResumeWorkBranch(w, branch, onRemote).Ok? ==>
      var o := ResumeWorkBranch(w, branch, onRemote);
      o.world.script == [] && o.world.ws.Cloned? && HeadCommit(o.world.ws.repo) == Some(w.ws.repo.local[branch])
  {
    ResumeKeeps(w, branch, true);
    ResumeKeeps(w, branch, false);
  }

  /** A preparation that meets no fault succeeds exactly if the repository can be had and the work branch put in place. */
  lemma FaultFreePreparation(w: World, req: Request)
    requires w.script == []
    ensures PrepareWorkspace(w, req).Ok? <==>
            Accepted(req) && Obtainable(w, req) && Placeable(CloneOrFetch(w, req).world.ws, w.remote, req)
  {
    ObtainsExactly(w, req);
    CloneOrFetchKeeps(w, req);
    if Accepted(req) && CloneOrFetch(w, req).Ok? {
      var w1 := CloneOrFetch(w, req).world;
      PlacesExactly(w1, req);
      if SwitchToWorkBranch(w1, req).Ok? {
        OnceInPlace(w, req);
      } else {
        PrepareParts(w, req);
      }
    }
  }

  /**
   * A work branch that is new everywhere starts at HEAD, wherever an earlier turn left it, and is reported as
   * created from the base branch; that is so exactly if HEAD is at the commit the base branch is on.
   */
  lemma CreatedFromHead(w: World, req: Request)
    requires w.script == [] && w.ws.Cloned? && req.workBranch != req.baseBranch
    requires req.workBranch !in w.ws.repo.local && !Answers(w.remote, req.workBranch)
    requires HeadCommit(w.ws.repo).Some? && req.baseBranch in w.ws.repo.local
    ensures var o := SwitchToWorkBranch(w, req);
      && o.Ok? && o.value.summary == Created(req.workBranch, req.baseBranch)
      && o.world.ws.Cloned? && req.workBranch in o.world.ws.repo.local && req.baseBranch in o.world.ws.repo.local
      && (o.world.ws.repo.local[req.workBranch] == o.world.ws.repo.local[req.baseBranch]
          <==> HeadCommit(w.ws.repo) == Some(w.ws.repo.local[req.baseBranch]))
  {
    var o := CheckoutNew(w.Met().Met(), req.workBranch);
    assert o.Ok? && o.world.ws.repo.local == w.ws.repo.local[req.workBranch := HeadCommit(w.ws.repo).value];
  }
}

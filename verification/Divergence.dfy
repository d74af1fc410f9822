/** The note about a work branch and its remote counterpart, and what it says on any acyclic history. */
module Divergence {
  import opened Common
  import opened Git

  /** How far a local branch and its remote counterpart have moved apart. */
  datatype BranchDivergence = BranchDivergence(ahead: nat, behind: nat)

  function DivergenceNote(d: BranchDivergence): Option<Note> {
    if d.ahead > 0 && d.behind > 0 then Some(Diverged(d.ahead, d.behind))
    else if d.behind > 0 then Some(BehindOnly(d.behind))
    else if d.ahead > 0 then Some(AheadOnly(d.ahead))
    else None
  }

  /** The counts git reports for two tips. */
  ghost function Measured(h: History, local: Commit, remote: Commit): BranchDivergence {
    BranchDivergence(RevListCount(h, remote, local), RevListCount(h, local, remote))
  }

  lemma ReachesSelf(h: History, c: Commit)
    requires c in h
    ensures Reaches(h, c, c)
  {
    assert WalkBetween(h, c, c, [c]);
  }

  lemma JoinWalks(h: History, a: Commit, b: Commit, c: Commit, first: seq<Commit>, second: seq<Commit>)
    requires WalkBetween(h, a, b, first) && WalkBetween(h, b, c, second)
    ensures WalkBetween(h, a, c, first + second[1..])
  {
    var walk := first + second[1..];
    forall i | 0 <= i < |walk| - 1
      ensures walk[i + 1] in h[walk[i]]
    {
      if i >= |first| - 1 {
        assert walk[i] == second[i + 1 - |first|] && walk[i + 1] == second[i + 2 - |first|];
      }
    }
  }

  lemma ReachesTransitive(h: History, a: Commit, b: Commit, c: Commit)
    requires Reaches(h, a, b) && Reaches(h, b, c)
    ensures Reaches(h, a, c)
  {
    var first :| WalkBetween(h, a, b, first);
    var second :| WalkBetween(h, b, c, second);
    JoinWalks(h, a, b, c, first, second);
  }

  /** On an acyclic history two commits are each other's ancestors only when they are the same. */
  lemma ReachesAntisymmetric(h: History, a: Commit, b: Commit)
    requires Acyclic(h) && Reaches(h, a, b) && Reaches(h, b, a)
    ensures a == b
  {
    var there :| WalkBetween(h, a, b, there);
    var back :| WalkBetween(h, b, a, back);
    JoinWalks(h, a, b, a, there, back);
    assert |there + back[1..]| == 1;
  }

  /** A side counts nothing of its own exactly when its tip is an ancestor of the other tip. */
  lemma CountsNothing(h: History, other: Commit, tip: Commit)
    requires other in h && tip in h
    ensures RevListCount(h, other, tip) == 0 <==> Reaches(h, other, tip)
  {
    var own := Ancestors(h, tip) - Ancestors(h, other);
    ReachesSelf(h, tip);
    if Reaches(h, other, tip) {
      forall a | a in Ancestors(h, tip)
        ensures a in Ancestors(h, other)
      {
        ReachesTransitive(h, other, tip, a);
      }
      assert own == {};
    } else {
      assert tip in own;
    }
  }

  /**
   * The note is exact: silent iff the tips are one commit, "diverged" iff neither is an ancestor of
   * the other, ahead or behind iff one is a strict ancestor of the other. The counts it carries are
   * those of the commits each side has and the other lacks.
   */
  lemma NoteIsExact(h: History, local: Commit, remote: Commit)
    requires Acyclic(h) && local in h && remote in h
    ensures var note := DivergenceNote(Measured(h, local, remote));
      && (note.None? <==> local == remote)
      && (note.Some? && note.value.Diverged? <==> !Reaches(h, local, remote) && !Reaches(h, remote, local))
      && (note.Some? && note.value.AheadOnly? <==> Reaches(h, local, remote) && local != remote)
      && (note.Some? && note.value.BehindOnly? <==> Reaches(h, remote, local) && local != remote)
      && (note.Some? ==> !note.value.HeadMoved?)
      && (note.Some? && !note.value.BehindOnly? ==> note.value.ahead == RevListCount(h, remote, local))
      && (note.Some? && !note.value.AheadOnly? ==> note.value.behind == RevListCount(h, local, remote))
  {
    CountsNothing(h, remote, local);
    CountsNothing(h, local, remote);
    if Reaches(h, local, remote) && Reaches(h, remote, local) {
      ReachesAntisymmetric(h, local, remote);
    }
    ReachesSelf(h, local);
  }
}

/** Runs of the un-sharing migration: the code of `upgrade`, with AUTOCOMMIT (alembic/env.py)
    every statement is its own transaction, so a run may stop after any of them and the next
    run starts from what it left. */
module UnsharingRuns {
  import opened Basics
  import opened CriteriaTables
  import opened CriteriaUnsharing

  // ---- the answer of the duplicates query ---------------------------------------------------------

  datatype Group = Group(criteria: CriteriaId, paths: seq<PathId>)

  predicate Sorted(xs: seq<PathId>) {
    forall i, j :: 0 <= i < j < |xs| ==> xs[i] < xs[j]
  }

  // GROUP BY criteria_id HAVING COUNT(*) > 1, each with its path ids in order; the groups
  // themselves come in any order.
  ghost predicate IsAnswer(s: Tables, dups: seq<Group>) {
    && (forall k :: 0 <= k < |dups| ==>
          && |dups[k].paths| > 1 && Sorted(dups[k].paths)
          && forall p :: p in dups[k].paths <==> RefersTo(s, p, dups[k].criteria))
    && (forall i, k :: 0 <= i < k < |dups| ==> dups[i].criteria != dups[k].criteria)
    && (forall p, q :: p != q && Shares(s, p, q) ==> exists k :: 0 <= k < |dups| && RefersTo(s, p, dups[k].criteria))
  }

  // Belongs to one of the first `i` groups, or to the first `j` paths of the next one.
  ghost predicate Handled(s: Tables, dups: seq<Group>, i: nat, j: nat, p: PathId) {
    || (exists k :: 0 <= k < i && k < |dups| && RefersTo(s, p, dups[k].criteria))
    || (i < |dups| && j <= |dups[i].paths| && p in dups[i].paths[..j])
  }

  ghost predicate IsHandledTails(s: Tables, dups: seq<Group>, i: nat, j: nat, done: set<PathId>) {
    forall p :: p in done <==> Tail(s, p) && Handled(s, dups, i, j, p)
  }

  lemma OnePathMore(s: Tables, dups: seq<Group>, i: nat, j: nat)
    requires IsAnswer(s, dups) && i < |dups| && 1 <= j < |dups[i].paths|
    ensures var p := dups[i].paths[j];
            && Tail(s, p) && Origin(s, p) == dups[i].criteria && !Handled(s, dups, i, j, p)
            && forall q :: Handled(s, dups, i, j + 1, q) <==> Handled(s, dups, i, j, q) || q == p
  {
    var ids := dups[i].paths;
    var p := ids[j];
    assert ids[0] in ids && p in ids;
    assert Shares(s, ids[0], p) && ids[0] < p;
    assert ids[..j + 1] == ids[..j] + [p];
    assert !Handled(s, dups, i, j, p) by {
      assert forall k :: 0 <= k < j ==> ids[k] < p;
      assert RefersTo(s, p, dups[i].criteria);
    }
  }

  lemma NextPath(s: Tables, dups: seq<Group>, i: nat, j: nat, done: set<PathId>)
    requires IsAnswer(s, dups) && i < |dups| && 1 <= j < |dups[i].paths| && IsHandledTails(s, dups, i, j, done)
    ensures var p := dups[i].paths[j];
            Tail(s, p) && Origin(s, p) == dups[i].criteria && p !in done
              && IsHandledTails(s, dups, i, j + 1, done + {p})
  {
    OnePathMore(s, dups, i, j);
  }

  lemma NextGroup(s: Tables, dups: seq<Group>, i: nat, done: set<PathId>)
    requires IsAnswer(s, dups) && i < |dups|
    ensures IsHandledTails(s, dups, i, |dups[i].paths|, done) <==> IsHandledTails(s, dups, i + 1, 1, done)
  {
    var ids := dups[i].paths;
    assert ids[..|ids|] == ids;
    forall p | Tail(s, p) ensures Handled(s, dups, i, |ids|, p) <==> Handled(s, dups, i + 1, 1, p) {
      if i + 1 < |dups| && p in dups[i + 1].paths[..1] {
        FirstIsNoTail(s, dups, i + 1);
      }
    }
  }

  lemma FirstIsNoTail(s: Tables, dups: seq<Group>, i: nat)
    requires IsAnswer(s, dups) && i < |dups|
    ensures !Tail(s, dups[i].paths[0])
  {
    var ids := dups[i].paths;
    forall q | Shares(s, q, ids[0]) ensures ids[0] <= q {
      assert ids[0] in ids;
      assert q in ids;
    }
  }

  lemma NothingHandledYet(s: Tables, dups: seq<Group>)
    requires IsAnswer(s, dups)
    ensures IsHandledTails(s, dups, 0, 1, {})
  {
    if |dups| > 0 {
      FirstIsNoTail(s, dups, 0);
      assert dups[0].paths[..1] == [dups[0].paths[0]];
    }
  }

  lemma EveryTailHandled(s: Tables, dups: seq<Group>, done: set<PathId>)
    requires IsAnswer(s, dups) && IsHandledTails(s, dups, |dups|, 1, done)
    ensures IsAllTails(s, done)
  {
    forall p | Tail(s, p) ensures Handled(s, dups, |dups|, 1, p) {
      var q: PathId :| q < p && Shares(s, q, p);
      assert Shares(s, p, q);
    }
  }

  // Where a run stands between two turns of its loops.
  ghost predicate Reached(s0: Tables, s: Tables, dups: seq<Group>, i: nat, j: nat, done: set<PathId>) {
    IsAnswer(s0, dups) && Progress(s0, s, done, {}) && IsHandledTails(s0, dups, i, j, done)
  }

  lemma GroupDone(s0: Tables, s: Tables, dups: seq<Group>, i: nat, done: set<PathId>)
    requires i < |dups| && Reached(s0, s, dups, i, |dups[i].paths|, done)
    ensures Reached(s0, s, dups, i + 1, 1, done)
  {
    NextGroup(s0, dups, i, done);
  }

  lemma GroupsHaveTwo(s0: Tables, s: Tables, dups: seq<Group>, i: nat, done: set<PathId>)
    requires i < |dups| && Reached(s0, s, dups, i, 1, done)
    ensures 1 < |dups[i].paths|
  {
  }

  lemma NewIdIsNew(s0: Tables, s: Tables)
    requires WellFormed(s) && OldRowsKept(s0, s)
    ensures s.nextId !in s0.criteria
  {
  }

  // How many paths the groups have besides their smallest.
  function Moves(dups: seq<Group>): int {
    if dups == [] then 0 else Moves(dups[..|dups| - 1]) + |dups[|dups| - 1].paths| - 1
  }

  lemma {:induction false} MovesNext(dups: seq<Group>, i: nat)
    requires i < |dups| && forall g <- dups :: |g.paths| > 1
    ensures Moves(dups[..i + 1]) == Moves(dups[..i]) + |dups[i].paths| - 1 <= Moves(dups)
    decreases |dups|
  {
    var n := |dups| - 1;
    assert dups[..i + 1][..i] == dups[..i];
    if i == n {
      assert dups[..i + 1] == dups;
    } else {
      MovesNext(dups[..n], i);
      assert dups[..n][..i] == dups[..i] && dups[..n][..i + 1] == dups[..i + 1];
    }
  }

  lemma {:induction false} TailsAreCounted(s: Tables, dups: seq<Group>, i: nat, j: nat, done: set<PathId>)
    requires IsAnswer(s, dups) && IsHandledTails(s, dups, i, j, done)
    requires if i == |dups| then j == 1 else i < |dups| && 1 <= j <= |dups[i].paths|
    ensures |done| == Moves(dups[..i]) + j - 1
    decreases i, j
  {
    if j > 1 {
      var p := dups[i].paths[j - 1];
      PathBefore(s, dups, i, j, done);
      TailsAreCounted(s, dups, i, j - 1, done - {p});
    } else if i > 0 {
      NextGroup(s, dups, i - 1, done);
      TailsAreCounted(s, dups, i - 1, |dups[i - 1].paths|, done);
      MovesNext(dups, i - 1);
    } else {
      NothingHandledYet(s, dups);
      assert done == {};
    }
  }

  lemma PathBefore(s: Tables, dups: seq<Group>, i: nat, j: nat, done: set<PathId>)
    requires IsAnswer(s, dups) && i < |dups| && 1 < j <= |dups[i].paths| && IsHandledTails(s, dups, i, j, done)
    ensures var p := dups[i].paths[j - 1]; p in done && IsHandledTails(s, dups, i, j - 1, done - {p})
  {
    OnePathMore(s, dups, i, j - 1);
  }

  // ---- the migration, as written ---------------------------------------------------------------------

  datatype Ending = Crashed | ConstraintRefused | Completed

  class Database {
    var st: Tables

    constructor (s: Tables)
      ensures st == s
    {
      st := s;
    }

    // One path of one group: reuse or make its clone, and move it there. `budget` is the
    // number of statements that still commit; `bare`: stopped between clone and groups.
    method MovePath(ghost s0: Tables, ghost done: set<PathId>, oldId: CriteriaId, p: PathId, budget: nat)
      returns (moved: bool, left: nat, ghost bare: set<PathId>)
      requires Progress(s0, st, done, {}) && Tail(s0, p) && p !in done && Origin(s0, p) == oldId
      modifies this
      ensures if moved then Progress(s0, st, done + {p}, {}) else Progress(s0, st, done, bare) && bare <= {p}
      ensures if moved then budget <= left + 3 else budget < 3
    {
      bare, moved, left := {}, false, budget;
      var newCode := CloneCode(oldId, p);
      var existing := FindCode(st, newCode);
      var newId;
      if existing.Some? {
        newId := existing.value;
      } else {
        if left == 0 { return; }
        left := left - 1;
        InsertKeeps(s0, st, done, p);
        newId := st.nextId;
        NewIdIsNew(s0, st);
        st := InsertClone(st, oldId, newCode);
        bare := {p};
        if left == 0 { return; }
        left := left - 1;
        assert HasCode(st, newId, newCode);
        CopyKeeps(s0, st, done, p, newId);
        st := CopyLinks(st, oldId, newId);
        bare := {};
      }
      if left == 0 { return; }
      left := left - 1;
      assert HasCode(st, newId, newCode);
      RepointKeeps(s0, st, done, p, newId);
      st := Repoint(st, p, newId);
      moved := true;
    }

    // One turn of the inner loop: path `j` of group `i`.
    method MoveNext(ghost s0: Tables, ghost done: set<PathId>, dups: seq<Group>, i: nat, j: nat, budget: nat)
      returns (moved: bool, left: nat, ghost done': set<PathId>, ghost bare: set<PathId>)
      requires i < |dups| && 1 <= j < |dups[i].paths| && Reached(s0, st, dups, i, j, done)
      modifies this
      ensures if moved then Reached(s0, st, dups, i, j + 1, done') else Progress(s0, st, done', bare)
      ensures if moved then budget <= left + 3 else budget < 3
    {
      NextPath(s0, dups, i, j, done);
      moved, left, bare := MovePath(s0, done, dups[i].criteria, dups[i].paths[j], budget);
      done' := if moved then done + {dups[i].paths[j]} else done;
    }

    // The inner loop of `upgrade`: every path of group `i` but the smallest.
    method MoveGroup(ghost s0: Tables, ghost before: set<PathId>, dups: seq<Group>, i: nat, budget: nat)
      returns (moved: bool, left: nat, ghost done: set<PathId>, ghost bare: set<PathId>)
      requires i < |dups| && Reached(s0, st, dups, i, 1, before)
      modifies this
      ensures moved ==> Reached(s0, st, dups, i, |dups[i].paths|, done)
      ensures !moved ==> Progress(s0, st, done, bare)
      ensures if moved then budget <= left + 3 * (|dups[i].paths| - 1) else budget < 3 * (|dups[i].paths| - 1)
    {
      done, bare, left, moved := before, {}, budget, true;
      GroupsHaveTwo(s0, st, dups, i, before);
      for j := 1 to |dups[i].paths|
        invariant moved && Reached(s0, st, dups, i, j, done)
        invariant budget <= left + 3 * (j - 1)
      {
        moved, left, done, bare := MoveNext(s0, done, dups, i, j, left);
        if !moved { return; }
      }
    }

    // The outer loop of `upgrade`.
    method MoveGroups(dups: seq<Group>, budget: nat)
      returns (moved: bool, ghost done: set<PathId>, ghost bare: set<PathId>)
      requires WellFormed(st) && IsAnswer(st, dups)
      modifies this
      ensures if moved then Reached(old(st), st, dups, |dups|, 1, done) else Progress(old(st), st, done, bare)
      ensures !moved ==> budget < 3 * Moves(dups)
    {
      ghost var s0 := st;
      done, bare, moved := {}, {}, true;
      StartsThere(st);
      NothingHandledYet(st, dups);
      var left: nat := budget;
      for i := 0 to |dups|
        invariant moved && Reached(s0, st, dups, i, 1, done)
        invariant budget <= left + 3 * Moves(dups[..i])
      {
        MovesNext(dups, i);
        moved, left, done, bare := MoveGroup(s0, done, dups, i, left);
        if !moved { return; }
        GroupDone(s0, st, dups, i, done);
      }
      assert dups[..|dups|] == dups;
    }

    /** `upgrade`: the loops over the answer of the duplicates query, then the unique
        constraint. Stops wherever `budget` statements have been committed; three for each
        path that has to move are enough. */
    method Upgrade(dups: seq<Group>, budget: nat)
      returns (r: Ending, ghost done: set<PathId>, ghost bare: set<PathId>)
      requires WellFormed(st) && IsAnswer(st, dups)
      modifies this
      ensures Progress(old(st), st, done, bare)
      ensures !r.Crashed? ==> bare == {} && IsAllTails(old(st), done) && |done| == Moves(dups)
      ensures !r.Crashed? ==> (r.Completed? <==> OldClonesFree(old(st)))
      ensures r.Completed? ==> Unshared(st)
      ensures budget >= 3 * Moves(dups) ==> !r.Crashed?
    {
      ghost var s0 := st;
      var moved;
      moved, done, bare := MoveGroups(dups, budget);
      r := Crashed;
      if moved {
        bare := {};
        EveryTailHandled(s0, dups, done);
        TailsAreCounted(s0, dups, |dups|, 1, done);
        assert dups[..|dups|] == dups;
        UnsharedExactlyWhenOldClonesFree(s0, st, done);
        r := if Unshared(st) then Completed else ConstraintRefused;
      }
    }
  }

  // ---- a second run, and a run after a crash ------------------------------------------------------------

  lemma AnswersAreShared(s: Tables, dups: seq<Group>)
    requires IsAnswer(s, dups) && dups != []
    ensures !Unshared(s)
  {
    var ids := dups[0].paths;
    assert ids[0] in ids && ids[1] in ids;
    assert RefersTo(s, ids[0], dups[0].criteria) && RefersTo(s, ids[1], dups[0].criteria);
  }

  // Once the migration has completed, the duplicates query has no answer and a second run
  // has nothing to do.
  lemma SecondRunDoesNothing(s: Tables, dups: seq<Group>)
    requires Unshared(s) && IsAnswer(s, dups)
    ensures dups == []
  {
    if dups != [] {
      AnswersAreShared(s, dups);
    }
  }

  // Nothing is in the way: clones that are there already are unused, faithful copies.
  ghost predicate Ready(s: Tables) {
    WellFormed(s) && OldClonesFree(s) && OldClonesFaithful(s)
  }

  // What a path refers to, without the row's id.
  datatype Reference = Reference(code: string, content: Content)

  function ReferenceOf(s: Tables, p: PathId): Option<Reference>
    requires WellFormed(s) && p in s.paths
  {
    if s.paths[p].criteria.None? then None
    else Some(Reference(s.criteria[Origin(s, p)].code, ContentOf(s, Origin(s, p))))
  }

  // Where the migration is to take it.
  ghost function Intended(s: Tables, p: PathId): Option<Reference>
    requires WellFormed(s) && p in s.paths
  {
    if Tail(s, p) then Some(Reference(CodeFor(s, p), ContentOf(s, Origin(s, p)))) else ReferenceOf(s, p)
  }

  lemma RunReachesIntended(s0: Tables, s: Tables, done: set<PathId>, p: PathId)
    requires Ready(s0) && Progress(s0, s, done, {}) && IsAllTails(s0, done) && p in s0.paths
    ensures ReferenceOf(s, p) == Intended(s0, p)
  {
    if Tail(s0, p) {
      ContentOfMoved(s0, s, done, p);
      assert Moved(s0, s, p);
    } else {
      assert s.paths[p] == s0.paths[p];
    }
  }

  // After a crash exactly the tails not yet moved are still tails.
  lemma TailsLeft(s0: Tables, c: Tables, done: set<PathId>, bare: set<PathId>, p: PathId)
    requires Ready(s0) && Progress(s0, c, done, bare)
    ensures Tail(c, p) <==> Tail(s0, p) && p !in done
  {
    if Tail(s0, p) && p !in done {
      var q := SmallestSharer(s0, p);
      assert q !in done;
      assert Shares(c, q, p);
    }
    if Tail(c, p) {
      var q: PathId :| q < p && Shares(c, q, p);
      StillSharing(s0, c, done, bare, p, q);
    }
  }

  // Two paths that share a row in the middle of a run are both unmoved.
  lemma StillSharing(s0: Tables, c: Tables, done: set<PathId>, bare: set<PathId>, p: PathId, q: PathId)
    requires Ready(s0) && Progress(s0, c, done, bare) && Shares(c, q, p) && p != q
    ensures p !in done && q !in done && Shares(s0, q, p)
  {
    if p in done {
      MovedSharesNothing(s0, c, done, bare, p, q);
      assert false;
    }
    if q in done {
      assert Shares(c, p, q);
      MovedSharesNothing(s0, c, done, bare, q, p);
      assert false;
    }
  }

  lemma MovedSharesNothing(s0: Tables, c: Tables, done: set<PathId>, bare: set<PathId>, p: PathId, q: PathId)
    requires Ready(s0) && Progress(s0, c, done, bare) && p in done && p != q
    ensures !Shares(c, q, p)
  {
    assert Moved(s0, c, p);
    if q in done {
      assert Moved(s0, c, q);
      if CodeFor(s0, p) == CodeFor(s0, q) {
        CloneCodeInjective(Origin(s0, p), p, Origin(s0, q), q);
      }
    } else {
      assert OldCloneFree(s0, p);
      assert q in s0.paths ==> !RefersTo(s0, q, Origin(c, p)) || !HasCode(s0, Origin(c, p), CodeFor(s0, p));
    }
  }

  // Every tail whose clone was made without its groups has no groups to copy.
  ghost predicate Harmless(s0: Tables, bare: set<PathId>) {
    forall p <- bare :: Tail(s0, p) ==> GroupsOf(s0, Origin(s0, p)) == {}
  }

  // The clone that is in place for a tail not yet moved, old or new.
  lemma CloneInPlace(s0: Tables, c: Tables, done: set<PathId>, bare: set<PathId>, p: PathId, e: CriteriaId)
    requires Ready(s0) && Progress(s0, c, done, bare) && Tail(s0, p) && p !in done && HasCode(c, e, CodeFor(s0, p))
    ensures forall q :: !RefersTo(c, q, e)
    ensures c.criteria[e].columns == s0.criteria[Origin(s0, p)].columns
    ensures GroupsOf(c, e) == if e !in s0.criteria && p in bare then {} else GroupsOf(s0, Origin(s0, p))
  {
    forall q ensures !RefersTo(c, q, e) {
      if q in done {
        assert Moved(s0, c, q);
        if CodeFor(s0, q) == CodeFor(s0, p) {
          CloneCodeInjective(Origin(s0, q), q, Origin(s0, p), p);
        }
      } else {
        assert OldCloneFree(s0, p);
        assert e in s0.criteria ==> HasCode(s0, e, CodeFor(s0, p)) && !RefersTo(s0, q, e);
      }
    }
    if e in s0.criteria {
      assert OldCloneFaithful(s0, p) && HasCode(s0, e, CodeFor(s0, p));
    } else {
      var q :| IsNewClone(s0, c, bare, e, q);
      CloneCodeInjective(Origin(s0, q), q, Origin(s0, p), p);
    }
  }

  // What a crash leaves is ready for the next run, if it is harmless.
  lemma CrashLeavesReady(s0: Tables, c: Tables, done: set<PathId>, bare: set<PathId>)
    requires Ready(s0) && Progress(s0, c, done, bare) && Harmless(s0, bare)
    ensures Ready(c)
  {
    forall p | Tail(c, p) ensures OldCloneFree(c, p) && OldCloneFaithful(c, p) {
      TailsLeft(s0, c, done, bare, p);
      assert c.paths[p] == s0.paths[p];
      forall e | HasCode(c, e, CodeFor(c, p))
        ensures (forall q :: !RefersTo(c, q, e)) && ContentOf(c, e) == ContentOf(c, Origin(c, p))
      {
        CloneInPlace(s0, c, done, bare, p, e);
      }
    }
  }

  lemma CrashKeepsIntention(s0: Tables, c: Tables, done: set<PathId>, bare: set<PathId>, p: PathId)
    requires Ready(s0) && Progress(s0, c, done, bare) && p in s0.paths
    ensures Intended(c, p) == Intended(s0, p)
  {
    TailsLeft(s0, c, done, bare, p);
    if p in done {
      MovedReference(s0, c, done, bare, p);
    } else {
      assert c.paths[p] == s0.paths[p];
    }
  }

  lemma MovedReference(s0: Tables, c: Tables, done: set<PathId>, bare: set<PathId>, p: PathId)
    requires Ready(s0) && Progress(s0, c, done, bare) && p in done
    ensures p in s0.paths && ReferenceOf(c, p) == Intended(s0, p)
  {
    assert Moved(s0, c, p);
    var e := Origin(c, p);
    if e in s0.criteria {
      assert OldCloneFaithful(s0, p) && HasCode(s0, e, CodeFor(s0, p));
    } else {
      var q :| IsNewClone(s0, c, bare, e, q);
      CloneCodeInjective(Origin(s0, q), q, Origin(s0, p), p);
    }
  }

  // The re-run theorem: a run that crashes anywhere and is started again takes every path
  // where the uninterrupted run takes it, if and only if it did not stop between making a
  // clone and copying the subject groups of a row that has any.
  lemma RerunMatchesExactlyWhenHarmless(s0: Tables, u: Tables, all: set<PathId>,
                                        c: Tables, done: set<PathId>, bare: set<PathId>, s: Tables, rest: set<PathId>)
    requires Ready(s0) && Progress(s0, u, all, {}) && IsAllTails(s0, all)
    requires Progress(s0, c, done, bare) && Progress(c, s, rest, {}) && IsAllTails(c, rest)
    ensures (forall p <- s0.paths :: ReferenceOf(s, p) == ReferenceOf(u, p)) <==> Harmless(s0, bare)
  {
    if Harmless(s0, bare) {
      CrashLeavesReady(s0, c, done, bare);
      forall p <- s0.paths ensures ReferenceOf(s, p) == ReferenceOf(u, p) {
        RunReachesIntended(s0, u, all, p);
        RunReachesIntended(c, s, rest, p);
        CrashKeepsIntention(s0, c, done, bare, p);
      }
    } else {
      var p :| p in bare && Tail(s0, p) && GroupsOf(s0, Origin(s0, p)) != {};
      GroupsAreLost(s0, c, done, bare, s, rest, p);
      RunReachesIntended(s0, u, all, p);
    }
  }

  // The excluded crash point: the next run finds the clone, skips the copy, and the path
  // ends up without its subject groups.
  lemma GroupsAreLost(s0: Tables, c: Tables, done: set<PathId>, bare: set<PathId>, s: Tables, rest: set<PathId>,
                      p: PathId)
    requires Ready(s0) && Progress(s0, c, done, bare) && Progress(c, s, rest, {}) && IsAllTails(c, rest)
    requires p in bare && Tail(s0, p)
    ensures p in s.paths && s.paths[p].criteria.Some? && GroupsOf(s, Origin(s, p)) == {}
  {
    assert HasBareClone(s0, c, p);
    var e :| e !in s0.criteria && HasCode(c, e, CodeFor(s0, p));
    CloneInPlace(s0, c, done, bare, p, e);
    TailsLeft(s0, c, done, bare, p);
    assert c.paths[p] == s0.paths[p];
    assert Moved(c, s, p);
    assert HasCode(s, e, CodeFor(s0, p));
    assert Origin(s, p) == e;
  }

  // Two paths share a row with one subject group; the run stops right after the clone.
  function SharedPair(): Tables {
    Tables(map[0 := Path(Some(0), 0), 1 := Path(Some(0), 0)], map[0 := Criteria("A", [])], {(0, 7)}, 1)
  }

  lemma SharedPairIsReady()
    ensures Ready(SharedPair()) && Tail(SharedPair(), 1) && 7 in GroupsOf(SharedPair(), 0)
    ensures forall e :: !HasCode(SharedPair(), e, CloneCode(0, 1))
  {
    var s := SharedPair();
    assert Shares(s, 0, 1);
    assert (0, 7) in s.links;
    forall p | Tail(s, p) ensures forall e :: !HasCode(s, e, CodeFor(s, p)) {
      assert |CodeFor(s, p)| >= 10 && |"A"| == 1;
    }
  }

  lemma HarmfulCrashHappens()
    ensures var c := InsertClone(SharedPair(), 0, CloneCode(0, 1));
            Ready(SharedPair()) && Progress(SharedPair(), c, {}, {1}) && !Harmless(SharedPair(), {1})
  {
    var s := SharedPair();
    SharedPairIsReady();
    StartsThere(s);
    InsertKeeps(s, s, {}, 1);
  }
}

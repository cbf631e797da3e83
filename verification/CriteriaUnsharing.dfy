/** The migration that gives every admission path its own criteria row
    (alembic/versions/adm003path001_admission_path_unique_criteria_id.py, `upgrade`). */
module CriteriaUnsharing {
  import opened Basics
  import opened CriteriaTables

  // ---- what has to move ------------------------------------------------------------------------

  ghost predicate Shares(s: Tables, q: PathId, p: PathId) {
    p in s.paths && q in s.paths && s.paths[p].criteria.Some? && s.paths[q].criteria == s.paths[p].criteria
  }

  // A path that shares its row with a smaller one; the smallest keeps the original.
  ghost predicate Tail(s: Tables, p: PathId) {
    exists q: PathId :: q < p && Shares(s, q, p)
  }

  // The row that `p` refers to.
  function Origin(s: Tables, p: PathId): CriteriaId
    requires p in s.paths && s.paths[p].criteria.Some?
  {
    s.paths[p].criteria.value
  }

  function CodeFor(s: Tables, p: PathId): string
    requires p in s.paths && s.paths[p].criteria.Some?
  {
    CloneCode(Origin(s, p), p)
  }

  // A row that already carries the code of `p`'s clone is referred to by nobody.
  ghost predicate OldCloneFree(s: Tables, p: PathId)
    requires p in s.paths && s.paths[p].criteria.Some?
  {
    forall e, q :: HasCode(s, e, CodeFor(s, p)) ==> !RefersTo(s, q, e)
  }

  // And it says the same as the row it was cloned from.
  ghost predicate OldCloneFaithful(s: Tables, p: PathId)
    requires WellFormed(s) && p in s.paths && s.paths[p].criteria.Some?
  {
    forall e :: HasCode(s, e, CodeFor(s, p)) ==>
      s.criteria[e].columns == s.criteria[Origin(s, p)].columns && GroupsOf(s, e) == GroupsOf(s, Origin(s, p))
  }

  // ---- how far a run has got ----------------------------------------------------------------------

  // A row that was not there at the start: the clone of some tail, without its subject
  // groups as long as that tail is in `bare`.
  ghost predicate IsNewClone(s0: Tables, s: Tables, bare: set<PathId>, e: CriteriaId, p: PathId)
    requires WellFormed(s0)
  {
    && Tail(s0, p) && HasCode(s, e, CodeFor(s0, p))
    && s.criteria[e].columns == s0.criteria[Origin(s0, p)].columns
    && GroupsOf(s, e) == (if p in bare then {} else GroupsOf(s0, Origin(s0, p)))
  }

  ghost predicate OldRowsKept(s0: Tables, s: Tables) {
    forall c <- s0.criteria :: c in s.criteria && s.criteria[c] == s0.criteria[c] && GroupsOf(s, c) == GroupsOf(s0, c)
  }

  ghost predicate PathsKept(s0: Tables, s: Tables, done: set<PathId>) {
    && s.paths.Keys == s0.paths.Keys
    && (forall p <- s0.paths :: s.paths[p].rest == s0.paths[p].rest && (p !in done ==> s.paths[p] == s0.paths[p]))
    && (forall p <- done :: Moved(s0, s, p))
  }

  ghost predicate Moved(s0: Tables, s: Tables, p: PathId) {
    && Tail(s0, p) && p in s.paths && s.paths[p].criteria.Some?
    && HasCode(s, s.paths[p].criteria.value, CodeFor(s0, p))
  }

  ghost predicate NewRowsOk(s0: Tables, s: Tables, bare: set<PathId>)
    requires WellFormed(s0)
  {
    forall e <- s.criteria :: e !in s0.criteria ==> exists p :: IsNewClone(s0, s, bare, e, p)
  }

  ghost predicate HasBareClone(s0: Tables, s: Tables, p: PathId)
    requires p in s0.paths && s0.paths[p].criteria.Some?
  {
    exists e :: e !in s0.criteria && HasCode(s, e, CodeFor(s0, p))
  }

  /** From `s0`, the tails in `done` have been moved to their clones; those in `bare` have a
      clone whose subject groups are not copied yet; nothing else has changed. */
  ghost predicate Progress(s0: Tables, s: Tables, done: set<PathId>, bare: set<PathId>) {
    && WellFormed(s0) && WellFormed(s)
    && OldRowsKept(s0, s) && PathsKept(s0, s, done) && NewRowsOk(s0, s, bare)
    && (forall p <- bare :: Tail(s0, p) && p !in done && HasBareClone(s0, s, p))
  }

  lemma StartsThere(s: Tables)
    requires WellFormed(s)
    ensures Progress(s, s, {}, {})
  {
  }

  // ---- the three writing statements -----------------------------------------------------------------

  // A clone that is not touched stays the clone it was.
  lemma NewCloneStays(s0: Tables, s: Tables, t: Tables, bare: set<PathId>, bare': set<PathId>, e: CriteriaId)
    requires WellFormed(s0) && NewRowsOk(s0, s, bare) && e in s.criteria && e !in s0.criteria
    requires e in t.criteria && t.criteria[e] == s.criteria[e] && GroupsOf(t, e) == GroupsOf(s, e)
    requires forall q :: Tail(s0, q) && HasCode(s, e, CodeFor(s0, q)) ==> (q in bare <==> q in bare')
    ensures exists q :: IsNewClone(s0, t, bare', e, q)
  {
    var q :| IsNewClone(s0, s, bare, e, q);
    assert IsNewClone(s0, t, bare', e, q);
  }

  lemma PathsStay(s0: Tables, s: Tables, t: Tables, done: set<PathId>)
    requires PathsKept(s0, s, done) && t.paths == s.paths
    requires forall c <- s.criteria :: c in t.criteria && t.criteria[c].code == s.criteria[c].code
    ensures PathsKept(s0, t, done)
  {
    forall q <- done ensures Moved(s0, t, q) {
      assert Moved(s0, s, q);
    }
  }

  lemma OneMorePath(s0: Tables, s: Tables, done: set<PathId>, p: PathId, e: CriteriaId)
    requires PathsKept(s0, s, done) && Tail(s0, p) && p in s.paths && HasCode(s, e, CodeFor(s0, p))
    ensures PathsKept(s0, Repoint(s, p, e), done + {p})
  {
    var t := Repoint(s, p, e);
    forall q <- done + {p} ensures Moved(s0, t, q) {
      assert q != p ==> Moved(s0, s, q);
    }
  }

  lemma InsertKeepsRows(s0: Tables, s: Tables, p: PathId)
    requires WellFormed(s0) && WellFormed(s) && NewRowsOk(s0, s, {}) && OldRowsKept(s0, s) && Tail(s0, p)
    requires forall e :: !HasCode(s, e, CodeFor(s0, p))
    ensures var t := InsertClone(s, Origin(s0, p), CodeFor(s0, p));
            NewRowsOk(s0, t, {p}) && OldRowsKept(s0, t) && WellFormed(t)
  {
    var o, code := Origin(s0, p), CodeFor(s0, p);
    var t := InsertClone(s, o, code);
    InsertedClone(s, o, code);
    forall e <- t.criteria | e !in s0.criteria ensures exists q :: IsNewClone(s0, t, {p}, e, q) {
      if e == s.nextId {
        assert IsNewClone(s0, t, {p}, e, p);
      } else {
        NewCloneStays(s0, s, t, {}, {p}, e);
      }
    }
  }

  lemma InsertMakesBareClone(s0: Tables, s: Tables, p: PathId)
    requires WellFormed(s) && OldRowsKept(s0, s) && Tail(s0, p) && Origin(s0, p) in s.criteria
    ensures HasBareClone(s0, InsertClone(s, Origin(s0, p), CodeFor(s0, p)), p)
  {
    assert s.nextId !in s0.criteria;
    assert HasCode(InsertClone(s, Origin(s0, p), CodeFor(s0, p)), s.nextId, CodeFor(s0, p));
  }

  lemma InsertKeepsPaths(s0: Tables, s: Tables, done: set<PathId>, o: CriteriaId, code: string)
    requires PathsKept(s0, s, done) && WellFormed(s) && o in s.criteria
    ensures PathsKept(s0, InsertClone(s, o, code), done)
  {
    PathsStay(s0, s, InsertClone(s, o, code), done);
  }

  lemma InsertKeeps(s0: Tables, s: Tables, done: set<PathId>, p: PathId)
    requires Progress(s0, s, done, {}) && Tail(s0, p) && p !in done
    requires forall e :: !HasCode(s, e, CodeFor(s0, p))
    ensures Progress(s0, InsertClone(s, Origin(s0, p), CodeFor(s0, p)), done, {p})
  {
    InsertKeepsRows(s0, s, p);
    InsertMakesBareClone(s0, s, p);
    InsertKeepsPaths(s0, s, done, Origin(s0, p), CodeFor(s0, p));
  }

  lemma CopyCompletesClone(s0: Tables, s: Tables, p: PathId, e: CriteriaId)
    requires WellFormed(s0) && NewRowsOk(s0, s, {p}) && Tail(s0, p) && OldRowsKept(s0, s)
    requires HasCode(s, e, CodeFor(s0, p)) && e !in s0.criteria
    ensures IsNewClone(s0, CopyLinks(s, Origin(s0, p), e), {}, e, p)
  {
    var q :| IsNewClone(s0, s, {p}, e, q);
    CloneCodeInjective(Origin(s0, p), p, Origin(s0, q), q);
    CopiedLinks(s, Origin(s0, p), e);
  }

  lemma CopyKeepsRows(s0: Tables, s: Tables, p: PathId, e: CriteriaId)
    requires WellFormed(s0) && WellFormed(s) && NewRowsOk(s0, s, {p}) && OldRowsKept(s0, s) && Tail(s0, p)
    requires HasCode(s, e, CodeFor(s0, p)) && e !in s0.criteria
    ensures var t := CopyLinks(s, Origin(s0, p), e); NewRowsOk(s0, t, {}) && OldRowsKept(s0, t)
  {
    var t := CopyLinks(s, Origin(s0, p), e);
    CopiedLinks(s, Origin(s0, p), e);
    CopyCompletesClone(s0, s, p, e);
    forall d <- t.criteria | d !in s0.criteria ensures exists q :: IsNewClone(s0, t, {}, d, q) {
      if d != e {
        OtherCloneStays(s0, s, t, p, d, e);
      }
    }
  }

  // The only bare clone is `e`.
  lemma OtherCloneStays(s0: Tables, s: Tables, t: Tables, p: PathId, d: CriteriaId, e: CriteriaId)
    requires WellFormed(s0) && WellFormed(s) && NewRowsOk(s0, s, {p}) && d in s.criteria && d !in s0.criteria && d != e
    requires Tail(s0, p) && HasCode(s, e, CodeFor(s0, p))
    requires t.criteria == s.criteria && GroupsOf(t, d) == GroupsOf(s, d)
    ensures exists q :: IsNewClone(s0, t, {}, d, q)
  {
    NewCloneStays(s0, s, t, {p}, {}, d);
  }

  lemma CopyKeeps(s0: Tables, s: Tables, done: set<PathId>, p: PathId, e: CriteriaId)
    requires Progress(s0, s, done, {p}) && HasCode(s, e, CodeFor(s0, p)) && e !in s0.criteria
    ensures Progress(s0, CopyLinks(s, Origin(s0, p), e), done, {})
  {
    CopyKeepsRows(s0, s, p, e);
    CopiedLinksHaveRows(s, Origin(s0, p), e);
    PathsStay(s0, s, CopyLinks(s, Origin(s0, p), e), done);
  }

  lemma RepointKeepsRows(s0: Tables, s: Tables, p: PathId, e: CriteriaId)
    requires WellFormed(s0) && WellFormed(s) && NewRowsOk(s0, s, {}) && OldRowsKept(s0, s)
    requires p in s.paths && e in s.criteria
    ensures var t := Repoint(s, p, e); NewRowsOk(s0, t, {}) && OldRowsKept(s0, t) && WellFormed(t)
  {
    var t := Repoint(s, p, e);
    assert forall c, code :: HasCode(t, c, code) <==> HasCode(s, c, code);
    assert forall c :: GroupsOf(t, c) == GroupsOf(s, c);
    forall d <- t.criteria | d !in s0.criteria ensures exists q :: IsNewClone(s0, t, {}, d, q) {
      NewCloneStays(s0, s, t, {}, {}, d);
    }
  }

  lemma RepointKeeps(s0: Tables, s: Tables, done: set<PathId>, p: PathId, e: CriteriaId)
    requires Progress(s0, s, done, {}) && Tail(s0, p) && p !in done && HasCode(s, e, CodeFor(s0, p))
    ensures Progress(s0, Repoint(s, p, e), done + {p}, {})
  {
    RepointKeepsRows(s0, s, p, e);
    OneMorePath(s0, s, done, p, e);
  }

  // ---- what a finished run means ----------------------------------------------------------------------

  ghost predicate IsAllTails(s: Tables, done: set<PathId>) {
    forall p :: p in done <==> Tail(s, p)
  }

  // Whoever shares a row, the smallest sharer is no tail.
  lemma {:induction false} SmallestSharer(s: Tables, p: PathId) returns (q: PathId)
    requires p in s.paths && s.paths[p].criteria.Some?
    ensures Shares(s, q, p) && !Tail(s, q) && q <= p && (Tail(s, p) ==> q < p)
    decreases p
  {
    if Tail(s, p) {
      var r: PathId :| r < p && Shares(s, r, p);
      q := SmallestSharer(s, r);
    } else {
      q := p;
    }
  }

  // Two moved paths never end up on the same row, nor a moved and an unmoved one unless the
  // unmoved one refers to a clone that was there before.
  lemma MovedApart(s0: Tables, s: Tables, done: set<PathId>, p: PathId, q: PathId)
    requires Progress(s0, s, done, {}) && p in done && Shares(s, p, q) && p != q
    ensures q !in done && RefersTo(s0, q, Origin(s, p)) && HasCode(s0, Origin(s, p), CodeFor(s0, p))
  {
    assert Moved(s0, s, p);
    if q in done {
      assert Moved(s0, s, q);
      CloneCodeInjective(Origin(s0, p), p, Origin(s0, q), q);
    }
  }

  ghost predicate OldClonesFree(s0: Tables) {
    forall p :: Tail(s0, p) ==> OldCloneFree(s0, p)
  }

  ghost predicate OldClonesFaithful(s0: Tables)
    requires WellFormed(s0)
  {
    forall p :: Tail(s0, p) ==> OldCloneFaithful(s0, p)
  }

  // The unique constraint can be created if and only if no clone that was there before is
  // in use by some path.
  lemma UnsharedExactlyWhenOldClonesFree(s0: Tables, s: Tables, done: set<PathId>)
    requires Progress(s0, s, done, {}) && IsAllTails(s0, done)
    ensures Unshared(s) <==> OldClonesFree(s0)
  {
    if OldClonesFree(s0) {
      forall p, q | Shares(s, p, q) ensures p == q {
        if p < q { SharingNeedsOldClone(s0, s, done, p, q); }
        if q < p { SharingNeedsOldClone(s0, s, done, q, p); }
      }
      UnsharedByShares(s);
    } else {
      var p :| Tail(s0, p) && !OldCloneFree(s0, p);
      var e, q :| HasCode(s0, e, CodeFor(s0, p)) && RefersTo(s0, q, e);
      ClashesWithOldClone(s0, s, done, p, e, q);
    }
  }

  lemma UnsharedByShares(s: Tables)
    requires forall p, q :: Shares(s, p, q) ==> p == q
    ensures Unshared(s)
  {
    forall p <- s.paths, q <- s.paths | s.paths[p].criteria.Some? && s.paths[p].criteria == s.paths[q].criteria
      ensures p == q
    {
      assert Shares(s, p, q);
    }
  }

  lemma SharingNeedsOldClone(s0: Tables, s: Tables, done: set<PathId>, p: PathId, q: PathId)
    requires Progress(s0, s, done, {}) && IsAllTails(s0, done) && p < q && (Shares(s, p, q) || Shares(s, q, p))
    ensures !OldClonesFree(s0)
  {
    assert Shares(s, p, q) && Shares(s, q, p);
    assert p !in done && q !in done ==> Shares(s0, p, q);
    if p in done {
      MovedApart(s0, s, done, p, q);
      assert !OldCloneFree(s0, p);
    } else {
      MovedApart(s0, s, done, q, p);
      assert !OldCloneFree(s0, q);
    }
  }

  lemma ClashesWithOldClone(s0: Tables, s: Tables, done: set<PathId>, p: PathId, e: CriteriaId, q: PathId)
    requires Progress(s0, s, done, {}) && IsAllTails(s0, done) && p in done
    requires HasCode(s0, e, CodeFor(s0, p)) && RefersTo(s0, q, e)
    ensures !Unshared(s)
  {
    var r := SmallestSharer(s0, q);
    assert r !in done && s.paths[r] == s0.paths[r];
    assert Moved(s0, s, p) && HasCode(s, e, CodeFor(s0, p));
    assert s.paths[p].criteria == Some(e) == s.paths[r].criteria;
    assert p != r;
  }

  // What a path's criteria say.
  datatype Content = Content(columns: Columns, groups: set<GroupId>)

  function ContentOf(s: Tables, c: CriteriaId): Content
    requires c in s.criteria
  {
    Content(s.criteria[c].columns, GroupsOf(s, c))
  }

  function ContentFor(s: Tables, p: PathId): Option<Content>
    requires WellFormed(s) && p in s.paths
  {
    if s.paths[p].criteria.None? then None else Some(ContentOf(s, s.paths[p].criteria.value))
  }

  // Every path's criteria say what they said before if and only if the clones that were
  // there before are faithful copies.
  lemma ContentKeptExactlyWhenOldClonesFaithful(s0: Tables, s: Tables, done: set<PathId>)
    requires Progress(s0, s, done, {}) && IsAllTails(s0, done)
    ensures (forall p <- s0.paths :: ContentFor(s, p) == ContentFor(s0, p)) <==> OldClonesFaithful(s0)
  {
    forall p <- s0.paths
      ensures ContentFor(s, p) == ContentFor(s0, p) <==> (Tail(s0, p) ==> OldCloneFaithful(s0, p))
    {
      if p in done {
        ContentOfMoved(s0, s, done, p);
      } else {
        assert s.paths[p] == s0.paths[p];
      }
    }
  }

  // The row that a moved path ended up on: an old one, or its own new clone.
  lemma RowOfMoved(s0: Tables, s: Tables, p: PathId, e: CriteriaId)
    requires WellFormed(s0) && NewRowsOk(s0, s, {}) && OldRowsKept(s0, s) && Tail(s0, p)
             && HasCode(s, e, CodeFor(s0, p))
    ensures if e in s0.criteria then HasCode(s0, e, CodeFor(s0, p)) else ContentOf(s, e) == ContentOf(s0, Origin(s0, p))
  {
    if e !in s0.criteria {
      var q :| IsNewClone(s0, s, {}, e, q);
      CloneCodeInjective(Origin(s0, p), p, Origin(s0, q), q);
    }
  }

  lemma ContentOfMoved(s0: Tables, s: Tables, done: set<PathId>, p: PathId)
    requires Progress(s0, s, done, {}) && p in done && p in s0.paths && Tail(s0, p)
    ensures ContentFor(s, p) == ContentFor(s0, p) <==> OldCloneFaithful(s0, p)
  {
    assert Moved(s0, s, p);
    var e := Origin(s, p);
    RowOfMoved(s0, s, p, e);
    if e in s0.criteria {
      FaithfulByOne(s0, p, e);
      assert ContentOf(s, e) == ContentOf(s0, e);
    } else {
      NoOldClone(s0, s, p, e);
    }
  }

  lemma FaithfulByOne(s0: Tables, p: PathId, e: CriteriaId)
    requires WellFormed(s0) && p in s0.paths && s0.paths[p].criteria.Some? && HasCode(s0, e, CodeFor(s0, p))
    ensures OldCloneFaithful(s0, p) <==> ContentOf(s0, e) == ContentOf(s0, Origin(s0, p))
  {
    assert forall d :: HasCode(s0, d, CodeFor(s0, p)) ==> d == e;
  }

  lemma NoOldClone(s0: Tables, s: Tables, p: PathId, e: CriteriaId)
    requires WellFormed(s0) && WellFormed(s) && OldRowsKept(s0, s) && Tail(s0, p)
    requires HasCode(s, e, CodeFor(s0, p)) && e !in s0.criteria
    ensures OldCloneFaithful(s0, p)
  {
    assert forall d :: HasCode(s0, d, CodeFor(s0, p)) ==> HasCode(s, d, CodeFor(s0, p));
  }

  // The smallest path of a shared row keeps it, and so does every path that shared nothing.
  lemma SmallestKeepsOriginal(s0: Tables, s: Tables, done: set<PathId>, p: PathId)
    requires Progress(s0, s, done, {}) && IsAllTails(s0, done) && p in s0.paths
    requires forall q :: Shares(s0, q, p) ==> p <= q
    ensures s.paths[p] == s0.paths[p]
  {
  }
}

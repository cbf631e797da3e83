/** The importer of admission paths (scripts/seed_from_xlsx.py, `seed_16_duong_dan`), run
    after the un-sharing migration: the sheet names the same criteria for many paths, the
    table no longer lets them share a row. */
module PathSeeding {
  import opened Basics
  import opened CriteriaTables
  import opened CriteriaUnsharing

  /** One sheet row, after its lookups: `key` is the (round, academic info, method) triple of
      the path, `found` says that all three were found; `code` is the criteria code, or "". */
  datatype SheetRow = SheetRow(found: bool, key: int, code: string)

  // Of a path's other columns only the key matters here.
  function KeyOf(path: Path): int {
    path.rest
  }

  predicate Taken(s: Tables, key: int) {
    exists p <- s.paths :: KeyOf(s.paths[p]) == key
  }

  predicate Used(s: Tables, c: CriteriaId) {
    exists p <- s.paths :: s.paths[p].criteria == Some(c)
  }

  // Every path has its own row and its own key, and ids to come are above those in use.
  ghost predicate Good(s: Tables, nextPath: PathId) {
    && WellFormed(s) && Unshared(s)
    && (forall p <- s.paths :: p < nextPath)
    && (forall p <- s.paths, q <- s.paths :: KeyOf(s.paths[p]) == KeyOf(s.paths[q]) ==> p == q)
  }

  // Rows never change once they are there, and no path that was there is touched.
  ghost predicate Extends(s: Tables, t: Tables) {
    && (forall c <- s.criteria :: c in t.criteria && t.criteria[c] == s.criteria[c] && GroupsOf(t, c) == GroupsOf(s, c))
    && (forall p <- s.paths :: p in t.paths && t.paths[p] == s.paths[p])
  }

  // The row that the sheet row names, if there is one.
  function Named(s: Tables, row: SheetRow): (r: Option<CriteriaId>)
    requires WellFormed(s)
    ensures r.Some? ==> HasCode(s, r.value, row.code)
  {
    if row.code == "" then None else FindCode(s, row.code)
  }

  // The name of the clone that new path `p` would need is that of a row in use.
  ghost predicate Blocked(s: Tables, p: PathId, base: CriteriaId) {
    Used(s, base) && exists e :: HasCode(s, e, CloneCode(base, p)) && Used(s, e)
  }

  // If it needs a clone and a row has its name, that row says what `base` says.
  ghost predicate StandInFaithful(s: Tables, p: PathId, base: CriteriaId)
    requires base in s.criteria
  {
    Used(s, base) ==> forall e :: HasCode(s, e, CloneCode(base, p)) ==> ContentOf(s, e) == ContentOf(s, base)
  }

  // The names of clones for paths that do not exist yet are not taken.
  ghost predicate NamesFree(s: Tables, nextPath: PathId) {
    forall c, b, p :: nextPath <= p ==> !HasCode(s, c, CloneCode(b, p))
  }

  // ---- resolve or clone ----------------------------------------------------------------------

  // The row for new path `p` that named `base`, and the tables with that row in place.
  function Resolve(s: Tables, p: PathId, base: CriteriaId): (CriteriaId, Tables)
    requires WellFormed(s) && base in s.criteria
  {
    if !Used(s, base) then (base, s)
    else
      var existing := FindCode(s, CloneCode(base, p));
      if existing.Some? then (existing.value, s)
      else (s.nextId, CopyLinks(InsertClone(s, base, CloneCode(base, p)), base, s.nextId))
  }

  lemma ResolveKeeps(s: Tables, p: PathId, base: CriteriaId)
    requires WellFormed(s) && base in s.criteria
    ensures var (c, t) := Resolve(s, p, base);
            WellFormed(t) && Extends(s, t) && t.paths == s.paths && c in t.criteria
            && forall d, code :: HasCode(t, d, code) ==> HasCode(s, d, code) || code == CloneCode(base, p)
  {
    var (c, t) := Resolve(s, p, base);
    if c !in s.criteria {
      var code := CloneCode(base, p);
      InsertedClone(s, base, code);
      var u := InsertClone(s, base, code);
      CopiedLinks(u, base, c);
      CopiedLinksHaveRows(u, base, c);
    }
  }

  // The row that was resolved is free unless the way is blocked, and says what `base` says
  // if and only if a stand-in does.
  lemma ResolveGives(s: Tables, p: PathId, base: CriteriaId)
    requires WellFormed(s) && base in s.criteria
    ensures var (c, t) := Resolve(s, p, base);
            && c in t.criteria && base in t.criteria
            && (if Used(s, base) then HasCode(t, c, CloneCode(base, p)) else c == base)
            && (Used(s, c) <==> Blocked(s, p, base))
            && (ContentOf(t, c) == ContentOf(t, base) <==> StandInFaithful(s, p, base))
  {
    var (c, t) := Resolve(s, p, base);
    ResolveKeeps(s, p, base);
    var code := CloneCode(base, p);
    if Used(s, base) && FindCode(s, code).None? {
      InsertedClone(s, base, code);
      CopiedLinks(InsertClone(s, base, code), base, c);
      assert c !in s.criteria;
    } else if Used(s, base) {
      assert HasCode(s, c, code);
      assert forall e :: HasCode(s, e, code) ==> e == c;
    }
  }

  // ---- what one row does ---------------------------------------------------------------------

  // `t` is `s` with the new path `p`, whose criteria is still null.
  function AddPath(s: Tables, p: PathId, key: int): Tables {
    s.(paths := s.paths[p := Path(None, key)])
  }

  lemma AddedPath(s: Tables, p: PathId, key: int)
    requires Good(s, p) && !Taken(s, key)
    ensures var t := AddPath(s, p, key);
            && Good(t, p + 1) && Extends(s, t) && t.paths[p].criteria.None?
            && (forall c: CriteriaId :: Used(t, c) <==> Used(s, c))
            && (forall c, code :: HasCode(t, c, code) <==> HasCode(s, c, code))
            && (forall c :: GroupsOf(t, c) == GroupsOf(s, c))
  {
    var t := AddPath(s, p, key);
    assert forall c :: GroupsOf(t, c) == GroupsOf(s, c);
    assert forall c, code :: HasCode(t, c, code) <==> HasCode(s, c, code);
    forall c: CriteriaId ensures Used(t, c) <==> Used(s, c) {
      if Used(s, c) {
        var q :| q in s.paths && s.paths[q].criteria == Some(c);
        assert t.paths[q] == s.paths[q];
      }
    }
  }

  // UPDATE admission_path SET criteria_id = :c, under the unique constraint.
  lemma PointedAt(s: Tables, p: PathId, c: CriteriaId)
    requires Good(s, p + 1) && p in s.paths && s.paths[p].criteria.None? && c in s.criteria && !Used(s, c)
    ensures var t := Repoint(s, p, c);
            && Good(t, p + 1) && t.paths.Keys == s.paths.Keys
            && (forall q <- s.paths :: q != p ==> t.paths[q] == s.paths[q])
            && ContentFor(t, p) == Some(ContentOf(s, c))
            && (forall d, code :: HasCode(t, d, code) <==> HasCode(s, d, code))
            && (forall d :: GroupsOf(t, d) == GroupsOf(s, d))
  {
    var t := Repoint(s, p, c);
    assert forall d, code :: HasCode(t, d, code) <==> HasCode(s, d, code);
    assert forall d :: GroupsOf(t, d) == GroupsOf(s, d);
  }

  /** What became of a row: `before` is the state it met, `path` the path it added. */
  datatype Addition = Addition(before: Tables, row: SheetRow, path: PathId)

  // The path refers to nothing if its row named nothing. Otherwise it refers to the named
  // row if that was free, else to its own clone; and it says what the named row says, if and
  // only if a stand-in that was already there says so.
  ghost predicate Accounted(t: Tables, a: Addition)
    requires WellFormed(a.before) && WellFormed(t)
  {
    && a.path in t.paths && KeyOf(t.paths[a.path]) == a.row.key
    && match Named(a.before, a.row)
       case None => t.paths[a.path].criteria.None?
       case Some(base) =>
         && t.paths[a.path].criteria.Some? && base in t.criteria
         && (if Used(a.before, base) then HasCode(t, Origin(t, a.path), CloneCode(base, a.path))
             else Origin(t, a.path) == base)
         && (ContentFor(t, a.path) == Some(ContentOf(t, base)) <==> StandInFaithful(a.before, a.path, base))
  }

  lemma AccountedLater(s: Tables, t: Tables, a: Addition)
    requires WellFormed(s) && WellFormed(t) && Extends(s, t) && WellFormed(a.before) && Accounted(s, a)
    ensures Accounted(t, a)
  {
  }

  lemma NamesStayFree(s: Tables, t: Tables, p: PathId)
    requires NamesFree(s, p)
    requires forall c, code :: HasCode(t, c, code) ==> HasCode(s, c, code) || exists b :: code == CloneCode(b, p)
    ensures NamesFree(t, p + 1)
  {
    forall c, b, q | p + 1 <= q ensures !HasCode(t, c, CloneCode(b, q)) {
      forall b' ensures CloneCode(b, q) != CloneCode(b', p) {
        if CloneCode(b, q) == CloneCode(b', p) { CloneCodeInjective(b, q, b', p); }
      }
    }
  }

  // Adding a path whose criteria is null changes no answer about criteria rows.
  lemma SameAnswers(s: Tables, p: PathId, key: int, row: SheetRow)
    requires Good(s, p) && !Taken(s, key)
    ensures var t := AddPath(s, p, key);
            WellFormed(t) && Named(t, row) == Named(s, row)
            && forall b <- s.criteria :: (Blocked(t, p, b) <==> Blocked(s, p, b))
                                         && (StandInFaithful(t, p, b) <==> StandInFaithful(s, p, b))
  {
    var t := AddPath(s, p, key);
    AddedPath(s, p, key);
    forall b <- s.criteria
      ensures Blocked(t, p, b) <==> Blocked(s, p, b)
      ensures StandInFaithful(t, p, b) <==> StandInFaithful(s, p, b)
    {
      assert forall e <- s.criteria :: ContentOf(t, e) == ContentOf(s, e);
    }
  }

  // The row resolved for a new path that is not blocked.
  lemma RowResolved(s: Tables, p: PathId, row: SheetRow, base: CriteriaId)
    requires Good(s, p) && !Taken(s, row.key) && Named(s, row) == Some(base) && !Blocked(s, p, base)
    ensures var a := AddPath(s, p, row.key);
            && WellFormed(a)
            && var (c, t) := Resolve(a, p, base);
               && Good(t, p + 1) && Extends(s, t) && t.paths == a.paths
               && c in t.criteria && base in t.criteria && !Used(t, c)
               && (if Used(s, base) then HasCode(t, c, CloneCode(base, p)) else c == base)
               && (ContentOf(t, c) == ContentOf(t, base) <==> StandInFaithful(s, p, base))
               && (NamesFree(s, p) ==> NamesFree(t, p + 1))
  {
    var a := AddPath(s, p, row.key);
    AddedPath(s, p, row.key);
    SameAnswers(s, p, row.key, row);
    ResolveKeeps(a, p, base);
    ResolveGives(a, p, base);
    if NamesFree(s, p) {
      NamesStayFree(s, Resolve(a, p, base).1, p);
    }
  }

  // Repointing the new path leaves everything of before as it was.
  lemma ExtendsNew(s: Tables, t: Tables, u: Tables, p: PathId)
    requires Extends(s, t) && p !in s.paths
    requires u.criteria == t.criteria && forall d :: GroupsOf(u, d) == GroupsOf(t, d)
    requires forall q <- t.paths :: q != p ==> q in u.paths && u.paths[q] == t.paths[q]
    ensures Extends(s, u)
  {
  }

  lemma PointedIsAccounted(s: Tables, t: Tables, p: PathId, row: SheetRow, base: CriteriaId, c: CriteriaId)
    requires WellFormed(s) && Named(s, row) == Some(base) && base in s.criteria && base in t.criteria
    requires Good(t, p + 1) && p in t.paths && t.paths[p] == Path(None, row.key) && c in t.criteria && !Used(t, c)
    requires if Used(s, base) then HasCode(t, c, CloneCode(base, p)) else c == base
    requires ContentOf(t, c) == ContentOf(t, base) <==> StandInFaithful(s, p, base)
    ensures WellFormed(Repoint(t, p, c)) && Accounted(Repoint(t, p, c), Addition(s, row, p))
  {
    PointedAt(t, p, c);
    assert ContentOf(Repoint(t, p, c), base) == ContentOf(t, base);
  }

  // A row that is not blocked: its path, the row resolved for it, and the reference.
  lemma RowAdds(s: Tables, p: PathId, row: SheetRow, base: CriteriaId)
    requires Good(s, p) && !Taken(s, row.key) && Named(s, row) == Some(base) && !Blocked(s, p, base)
    ensures WellFormed(AddPath(s, p, row.key))
    ensures var (c, t) := Resolve(AddPath(s, p, row.key), p, base);
            var u := Repoint(t, p, c);
            && Good(u, p + 1) && Extends(s, u) && u.paths.Keys == s.paths.Keys + {p}
            && Accounted(u, Addition(s, row, p))
            && (NamesFree(s, p) ==> NamesFree(u, p + 1))
  {
    RowResolved(s, p, row, base);
    var (c, t) := Resolve(AddPath(s, p, row.key), p, base);
    PointedAt(t, p, c);
    ExtendsNew(s, t, Repoint(t, p, c), p);
    PointedIsAccounted(s, t, p, row, base, c);
    if NamesFree(s, p) {
      assert NamesFree(Repoint(t, p, c), p + 1);
    }
  }

  // ---- the sheet ---------------------------------------------------------------------------------

  /** From `s` to `t` exactly the paths in `log` were added, one id after the other, each in
      a state in which it was new, and each is accounted for in `t`. */
  ghost predicate Records(s: Tables, first: PathId, t: Tables, next: PathId, log: seq<Addition>)
    requires WellFormed(t)
  {
    && next == first + |log|
    && (forall p :: p in t.paths <==> p in s.paths || first <= p < next)
    && (forall k :: 0 <= k < |log| ==> Recorded(s, first, t, log[k], first + k))
  }

  ghost predicate Recorded(s: Tables, first: PathId, t: Tables, a: Addition, p: PathId)
    requires WellFormed(t)
  {
    && a.path == p && a.row.found && Good(a.before, p) && !Taken(a.before, a.row.key)
    && Extends(s, a.before) && Accounted(t, a)
    && (NamesFree(s, first) ==> NamesFree(a.before, p))
  }

  lemma RecordsGrow(s: Tables, first: PathId, t: Tables, next: PathId, log: seq<Addition>, u: Tables, row: SheetRow)
    requires Good(t, next) && WellFormed(u) && Extends(s, t) && Extends(t, u) && Records(s, first, t, next, log)
    requires u.paths.Keys == t.paths.Keys + {next} && row.found && !Taken(t, row.key)
    requires Accounted(u, Addition(t, row, next)) && (NamesFree(s, first) ==> NamesFree(t, next))
    ensures Records(s, first, u, next + 1, log + [Addition(t, row, next)])
  {
    var log' := log + [Addition(t, row, next)];
    forall p ensures p in u.paths <==> p in s.paths || first <= p < next + 1 {
      assert p in u.paths <==> p in t.paths || p == next;
    }
    forall k | 0 <= k < |log'| ensures Recorded(s, first, u, log'[k], first + k) {
      if k < |log| {
        assert Recorded(s, first, t, log[k], first + k);
        AccountedLater(t, u, log[k]);
      }
    }
  }

  lemma TakenLater(s: Tables, t: Tables, key: int)
    requires Extends(s, t) && Taken(s, key)
    ensures Taken(t, key)
  {
    var p :| p in s.paths && KeyOf(s.paths[p]) == key;
    assert t.paths[p] == s.paths[p];
  }

  // With no stale clone about, every path the sheet added says what the row it named says.
  lemma AddedPathsSayWhatTheyNamed(s: Tables, first: PathId, t: Tables, next: PathId, log: seq<Addition>, k: nat,
                                   base: CriteriaId)
    requires WellFormed(t) && Records(s, first, t, next, log) && k < |log| && NamesFree(s, first)
    requires Recorded(s, first, t, log[k], first + k)
    requires log[k].row.code != "" && HasCode(log[k].before, base, log[k].row.code)
    ensures first + k in t.paths && base in t.criteria && ContentFor(t, first + k) == Some(ContentOf(t, base))
  {
    var a := log[k];
    NamedExactly(a.before, a.row, base);
    assert forall e :: !HasCode(a.before, e, CloneCode(base, a.path));
  }

  // A sheet row names the criteria row that carries its code, and none if it has no code.
  lemma NamedExactly(s: Tables, row: SheetRow, c: CriteriaId)
    requires WellFormed(s)
    ensures Named(s, row) == Some(c) <==> row.code != "" && HasCode(s, c, row.code)
  {
  }

  // Every path the sheet added refers to a criteria row if and only if its code was not empty
  // and some row carried it then.
  lemma AddedPathHasCriteriaExactly(s: Tables, first: PathId, t: Tables, next: PathId, log: seq<Addition>, k: nat)
    requires WellFormed(t) && Records(s, first, t, next, log) && k < |log|
    ensures first + k in t.paths
    ensures t.paths[first + k].criteria.Some? <==>
              log[k].row.code != "" && exists c :: HasCode(log[k].before, c, log[k].row.code)
  {
    var a := log[k];
    assert Recorded(s, first, t, a, first + k);
    if a.row.code != "" && exists c :: HasCode(a.before, c, a.row.code) {
      var c :| HasCode(a.before, c, a.row.code);
      NamedExactly(a.before, a.row, c);
    }
  }

  // Ids do come round again: the script sets the sequence back to the largest id in use, so
  // after a path is deleted its clone's name may be waiting. Then a sheet that names the
  // right row gives the path another one's content.
  lemma StaleCloneIsTaken()
    ensures var s := Tables(map[0 := Path(Some(0), 0)],
                            map[0 := Criteria("A", [1]), 1 := Criteria(CloneCode(0, 1), [2])], {}, 2);
            && Good(s, 1) && Named(s, SheetRow(true, 5, "A")) == Some(0)
            && !Blocked(s, 1, 0) && !StandInFaithful(s, 1, 0)
  {
    var s := Tables(map[0 := Path(Some(0), 0)],
                    map[0 := Criteria("A", [1]), 1 := Criteria(CloneCode(0, 1), [2])], {}, 2);
    assert |"A"| == 1;
    assert |CloneCode(0, 1)| > 1;
    assert HasCode(s, 0, "A") && HasCode(s, 1, CloneCode(0, 1));
    assert s.paths[0].criteria == Some(0);
    assert !Used(s, 1);
    assert ContentOf(s, 1).columns == [2] && ContentOf(s, 0).columns == [1];
  }

  datatype Outcome = Skipped | Refused | Added

  class Importer {
    var st: Tables
    var nextPath: PathId

    // The database as the importer finds it; `nextPath` is what the id sequence gives next.
    constructor (s: Tables, nextPath: PathId)
      ensures st == s && this.nextPath == nextPath
    {
      this.st, this.nextPath := s, nextPath;
    }

    // One row of the sheet.
    method SeedRow(row: SheetRow) returns (o: Outcome)
      requires Good(st, nextPath)
      modifies this
      ensures o.Skipped? <==> !row.found || Taken(old(st), row.key)
      ensures o.Skipped? ==> st == old(st) && nextPath == old(nextPath)
      ensures o.Refused? <==> row.found && !Taken(old(st), row.key)
                              && Named(old(st), row).Some? && Blocked(old(st), old(nextPath), Named(old(st), row).value)
      ensures o.Added? ==> Good(st, nextPath) && nextPath == old(nextPath) + 1 && Extends(old(st), st)
                           && st.paths.Keys == old(st).paths.Keys + {old(nextPath)}
                           && Accounted(st, Addition(old(st), row, old(nextPath)))
      ensures o.Added? && NamesFree(old(st), old(nextPath)) ==> NamesFree(st, nextPath)
    {
      if !row.found || Taken(st, row.key) {
        return Skipped;
      }
      ghost var s := st;
      var p := nextPath;
      AddedPath(s, p, row.key);
      SameAnswers(s, p, row.key, row);
      st, nextPath := AddPath(st, p, row.key), nextPath + 1;
      var base := Named(st, row);
      if base.Some? {
        ResolveKeeps(st, p, base.value);
        ResolveGives(st, p, base.value);
        ghost var a := st;
        var (c, t) := Resolve(st, p, base.value);
        st := t;
        assert Used(t, c) <==> Used(a, c);
        if Used(st, c) {
          return Refused;
        }
        RowAdds(s, p, row, base.value);
        st := Repoint(st, p, c);
      }
      o := Added;
    }

    /** The whole sheet, in one transaction: a refused row takes back what the sheet did.
        `log` lists the paths added, in the order of their rows. */
    method Seed(rows: seq<SheetRow>) returns (completed: bool, ghost log: seq<Addition>)
      requires Good(st, nextPath)
      modifies this
      ensures Good(st, nextPath)
      ensures !completed ==> st == old(st) && nextPath == old(nextPath)
      ensures completed ==> Extends(old(st), st) && Records(old(st), old(nextPath), st, nextPath, log)
      ensures completed ==> forall row <- rows :: row.found ==> Taken(st, row.key)
      ensures NamesFree(old(st), old(nextPath)) ==> completed && NamesFree(st, nextPath)
    {
      log := [];
      ghost var s, first := st, nextPath;
      var saved, savedNext := st, nextPath;
      var i := 0;
      while i < |rows|
        invariant i <= |rows| && Good(st, nextPath)
        invariant Extends(s, st) && Records(s, first, st, nextPath, log)
        invariant forall row <- rows[..i] :: row.found ==> Taken(st, row.key)
        invariant NamesFree(s, first) ==> NamesFree(st, nextPath)
      {
        ghost var before, beforeNext := st, nextPath;
        var o := SeedRow(rows[i]);
        if o.Refused? {
          st, nextPath := saved, savedNext;
          return false, log;
        }
        if o.Added? {
          RecordsGrow(s, first, before, beforeNext, log, st, rows[i]);
          log := log + [Addition(before, rows[i], beforeNext)];
        }
        forall row <- rows[..i + 1] | row.found ensures Taken(st, row.key) {
          if row in rows[..i] { TakenLater(before, st, row.key); }
        }
        i := i + 1;
      }
      completed := true;
    }
  }
}

/** The three tables behind "one criteria row per admission path": admission_path,
    admission_criteria and criteria_subject_group, with the single statements that the
    migration (adm003path001) and the importer (seed_from_xlsx.py) run on them. */
module CriteriaTables {
  import opened Basics
  import opened Decimal

  type PathId = nat
  type CriteriaId = nat
  type GroupId = nat
  type Columns = seq<int>   // every copied column of a criteria row, in order

  datatype Criteria = Criteria(code: string, columns: Columns)

  // A path: what it refers to, and everything else in its row.
  datatype Path = Path(criteria: Option<CriteriaId>, rest: int)

  datatype Tables = Tables(
    paths: map<PathId, Path>,
    criteria: map<CriteriaId, Criteria>,
    links: set<(CriteriaId, GroupId)>,
    nextId: CriteriaId)

  // Keys in place: unique codes, no dangling reference, a sequence ahead of its ids.
  ghost predicate WellFormed(s: Tables) {
    && (forall a, b, code :: HasCode(s, a, code) && HasCode(s, b, code) ==> a == b)
    && (forall p <- s.paths :: s.paths[p].criteria.Some? ==> s.paths[p].criteria.value in s.criteria)
    && (forall l <- s.links :: l.0 in s.criteria)
    && (forall c <- s.criteria :: c < s.nextId)
  }

  predicate RefersTo(s: Tables, p: PathId, c: CriteriaId) {
    p in s.paths && s.paths[p].criteria == Some(c)
  }

  function GroupsOf(s: Tables, c: CriteriaId): set<GroupId> {
    set l | l in s.links && l.0 == c :: l.1
  }

  // No two paths refer to the same criteria row.
  predicate Unshared(s: Tables) {
    forall p <- s.paths, q <- s.paths :: s.paths[p].criteria.Some? && s.paths[p].criteria == s.paths[q].criteria ==>
      p == q
  }

  // ---- clone codes ---------------------------------------------------------------------------

  // CRIT_orig_{old_id}_path_{path_id}
  function CloneCode(c: CriteriaId, p: PathId): string {
    "CRIT_orig_" + (Render(c) + ("_path_" + Render(p)))
  }

  // The code names the pair: two paths never ask for the same clone.
  lemma CloneCodeInjective(c: CriteriaId, p: PathId, d: CriteriaId, q: PathId)
    requires CloneCode(c, p) == CloneCode(d, q)
    ensures c == d && p == q
  {
    var x, y := Render(c) + ("_path_" + Render(p)), Render(d) + ("_path_" + Render(q));
    assert x == CloneCode(c, p)[10..] && y == CloneCode(d, q)[10..];
    RenderIsDigits(c);
    RenderIsDigits(d);
    NumberThenText(Render(c), "_path_" + Render(p), Render(d), "_path_" + Render(q));
    assert Render(p) == ("_path_" + Render(p))[6..] == ("_path_" + Render(q))[6..] == Render(q);
    RenderInjective(c, d);
    RenderInjective(p, q);
  }

  // The text that other code matches on: the row's id comes first, then the path's.
  lemma CloneCodeText(c: CriteriaId, p: PathId)
    ensures exists row, path ::
              && CloneCode(c, p) == "CRIT_orig_" + row + "_path_" + path
              && (forall d <- row + path :: IsDigit(d)) && ReadNumber(row) == c && ReadNumber(path) == p
  {
    var row, path := Render(c), Render(p);
    RenderReadsBack(c);
    RenderReadsBack(p);
    RenderIsDigits(c);
    RenderIsDigits(p);
    assert CloneCode(c, p) == "CRIT_orig_" + row + "_path_" + path;
  }

  // ---- single statements ---------------------------------------------------------------------

  ghost predicate HasCode(s: Tables, c: CriteriaId, code: string) {
    c in s.criteria && s.criteria[c].code == code
  }

  // SELECT id FROM admission_criteria WHERE code = :code
  function FindCode(s: Tables, code: string): (r: Option<CriteriaId>)
    requires WellFormed(s)
    ensures r.Some? ==> HasCode(s, r.value, code)
    ensures r.None? ==> forall c :: !HasCode(s, c, code)
  {
    var found := set c | c in s.criteria && s.criteria[c].code == code;
    if found == {} then assert forall c :: HasCode(s, c, code) ==> c in found; None
    else
      var c :| c in found;
      assert forall d <- found :: HasCode(s, d, code) && HasCode(s, c, code) ==> d == c;
      Some(c)
  }

  // INSERT INTO admission_criteria (code, ...) SELECT :code, ... WHERE id = :from RETURNING id
  function InsertClone(s: Tables, from: CriteriaId, code: string): Tables
    requires from in s.criteria
  {
    s.(criteria := s.criteria[s.nextId := Criteria(code, s.criteria[from].columns)], nextId := s.nextId + 1)
  }

  // INSERT INTO criteria_subject_group ... SELECT :to, subject_group_id WHERE criteria_id = :from
  function CopyLinks(s: Tables, from: CriteriaId, to: CriteriaId): Tables {
    s.(links := s.links + set g | g in GroupsOf(s, from) :: (to, g))
  }

  // UPDATE admission_path SET criteria_id = :to WHERE id = :p
  function Repoint(s: Tables, p: PathId, to: CriteriaId): Tables
    requires p in s.paths
  {
    s.(paths := s.paths[p := s.paths[p].(criteria := Some(to))])
  }

  lemma CopiedLinks(s: Tables, from: CriteriaId, to: CriteriaId)
    requires from != to
    ensures GroupsOf(CopyLinks(s, from, to), to) == GroupsOf(s, to) + GroupsOf(s, from)
    ensures forall c :: c != to ==> GroupsOf(CopyLinks(s, from, to), c) == GroupsOf(s, c)
  {
    var t := CopyLinks(s, from, to);
    forall g ensures g in GroupsOf(t, to) <==> g in GroupsOf(s, to) + GroupsOf(s, from) {
      if g in GroupsOf(s, to) { assert (to, g) in t.links; }
      if g in GroupsOf(s, from) { assert (to, g) in t.links; }
    }
    forall c | c != to ensures GroupsOf(t, c) == GroupsOf(s, c) {
      forall g ensures g in GroupsOf(t, c) <==> g in GroupsOf(s, c) {
        assert (c, g) in t.links <==> (c, g) in s.links;
      }
    }
  }

  lemma CopiedLinksHaveRows(s: Tables, from: CriteriaId, to: CriteriaId)
    requires WellFormed(s) && to in s.criteria
    ensures WellFormed(CopyLinks(s, from, to))
  {
    var t := CopyLinks(s, from, to);
    assert forall c, code :: HasCode(t, c, code) <==> HasCode(s, c, code);
  }

  lemma InsertedClone(s: Tables, from: CriteriaId, code: string)
    requires WellFormed(s) && from in s.criteria && forall c :: !HasCode(s, c, code)
    ensures var t := InsertClone(s, from, code);
            WellFormed(t) && s.nextId !in s.criteria && GroupsOf(t, s.nextId) == {}
            && forall c :: GroupsOf(t, c) == GroupsOf(s, c)
  {
    var t := InsertClone(s, from, code);
    assert forall c <- s.criteria :: HasCode(s, c, s.criteria[c].code);
    assert t.links == s.links;
  }
}

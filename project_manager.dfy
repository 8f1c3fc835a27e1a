/** The project registry (src/services/project-manager.js). The rows of
    projects.json are a sequence held by the manager in place of the file,
    and the in-memory `Map` of loaded projects is a sequence in insertion
    order with at most one entry per id, as a JavaScript `Map` iterates.
    A missing or falsy field is the empty string. */
module ProjectManager {
  import opened Wrappers
  import opened Strings
  import Seqs
  import Slugs
  import Paths

  /** A row of projects.json, or a loaded project. */
  datatype Project = Project(id: string, name: string, cwd: string, kind: string)

  const NotNonEmptyArray: string := "projects.json must be a non-empty array"
  const MissingFields: string := "Project missing required fields (id, cwd)"
  const MissingId: string := "Missing project id"
  const MissingCwd: string := "Missing project cwd"
  const LastProject: string := "Cannot remove the last remaining project"
  const NoProjects: string := "No projects configured"
  const NotADirectory: string := "DEVELOPMENT_ROOT is not a directory: "

  // ---------------------------------------------------------------------
  // A Map keyed by project id

  /** The position of the first entry with `id`, or -1 (`findIndex`). */
  function IndexOfId(ps: seq<Project>, id: string): (r: int)
    ensures -1 <= r < |ps|
    ensures r >= 0 ==> ps[r].id == id && forall j :: 0 <= j < r ==> ps[j].id != id
    ensures r < 0 <==> forall j :: 0 <= j < |ps| ==> ps[j].id != id
  {
    if ps == [] then -1
    else if ps[0].id == id then 0
    else
      var k := IndexOfId(ps[1..], id);
      assert forall j :: 1 <= j < |ps| ==> ps[j] == ps[1..][j - 1];
      if k < 0 then -1 else k + 1
  }

  /** No id occurs twice. */
  predicate UniqueIds(ps: seq<Project>)
  {
    forall i, j :: 0 <= i < j < |ps| ==> ps[i].id != ps[j].id
  }

  /** `map.get(id)`. */
  function Get(ps: seq<Project>, id: string): (r: Option<Project>)
    ensures r.Some? ==> r.value in ps && r.value.id == id
    ensures r.None? <==> forall j :: 0 <= j < |ps| ==> ps[j].id != id
  {
    var i := IndexOfId(ps, id);
    if i < 0 then None else Some(ps[i])
  }

  /** `map.set(p.id, p)`: the entry with that id is replaced where it
      stands, else `p` is added at the end. */
  function SetById(ps: seq<Project>, p: Project): seq<Project>
  {
    var i := IndexOfId(ps, p.id);
    if i >= 0 then ps[i := p] else ps + [p]
  }

  /** After a set, the id maps to the new entry, every other id to what it
      mapped to before, and ids stay unique. */
  lemma SetByIdSpec(ps: seq<Project>, p: Project)
    requires UniqueIds(ps)
    ensures UniqueIds(SetById(ps, p))
    ensures Get(SetById(ps, p), p.id) == Some(p)
    ensures forall id :: id != p.id ==> Get(SetById(ps, p), id) == Get(ps, id)
    ensures |SetById(ps, p)| == |ps| + (if Get(ps, p.id).Some? then 0 else 1)
  {
    var r := SetById(ps, p);
    var i := IndexOfId(ps, p.id);
    var b := IndexOfId(r, p.id);
    if i >= 0 {
      assert r[i].id == p.id;
      assert b == i;
    } else {
      assert r[|ps|].id == p.id;
      assert b == |ps|;
    }
    forall id | id != p.id ensures Get(r, id) == Get(ps, id) {
      var a := IndexOfId(ps, id);
      var b := IndexOfId(r, id);
      if a >= 0 {
        assert r[a].id == id;
        assert b >= 0;
        assert ps[b].id == id;
      }
    }
  }

  /** A sequence of rows as a Map, each row set in turn (`new Map(list.map(p
      => [p.id, p]))`). */
  function Indexed(list: seq<Project>): seq<Project>
    decreases |list|
  {
    if list == [] then [] else SetById(Indexed(list[..|list| - 1]), list[|list| - 1])
  }

  /** The last row with `id`, which is what the Map keeps for it. */
  function LastWithId(list: seq<Project>, id: string): (r: Option<Project>)
    ensures r.Some? ==> r.value in list && r.value.id == id
    ensures r.None? <==> forall j :: 0 <= j < |list| ==> list[j].id != id
    decreases |list|
  {
    if list == [] then None
    else if list[|list| - 1].id == id then Some(list[|list| - 1])
    else
      assert forall j :: 0 <= j < |list| - 1 ==> list[..|list| - 1][j] == list[j];
      LastWithId(list[..|list| - 1], id)
  }

  /** The Map built from rows has unique ids and holds for each id the last
      row with it. */
  lemma {:induction false} IndexedSpec(list: seq<Project>)
    ensures UniqueIds(Indexed(list))
    ensures forall id :: Get(Indexed(list), id) == LastWithId(list, id)
    decreases |list|
  {
    if list != [] {
      var init := list[..|list| - 1];
      IndexedSpec(init);
      SetByIdSpec(Indexed(init), list[|list| - 1]);
    }
  }

  // ---------------------------------------------------------------------
  // loadProjects

  /** A row `loadProjects` accepts: it has an id and a cwd. */
  predicate Valid(p: Project)
  {
    p.id != "" && p.cwd != ""
  }

  /** The loaded form of a row: the name defaults to the id and the type to
      "generic". */
  function WithDefaults(p: Project): (r: Project)
    ensures r.id == p.id && r.cwd == p.cwd
    ensures r.name == (if p.name != "" then p.name else p.id)
    ensures r.kind == (if p.kind != "" then p.kind else "generic")
  {
    Project(p.id, if p.name != "" then p.name else p.id, p.cwd, if p.kind != "" then p.kind else "generic")
  }

  /** The Map `loadProjects` fills from valid rows. */
  function Loaded(list: seq<Project>): seq<Project>
    decreases |list|
  {
    if list == [] then [] else SetById(Loaded(list[..|list| - 1]), WithDefaults(list[|list| - 1]))
  }

  /** The position of the first row `loadProjects` refuses, or |list|. */
  function FirstInvalid(list: seq<Project>): (k: nat)
    ensures k <= |list|
    ensures forall j :: 0 <= j < k ==> Valid(list[j])
    ensures k < |list| ==> !Valid(list[k])
  {
    if list == [] then 0
    else if !Valid(list[0]) then 0
    else
      assert forall j :: 1 <= j < |list| ==> list[j] == list[1..][j - 1];
      1 + FirstInvalid(list[1..])
  }

  /** The loaded Map holds each id of the rows once, with the defaults
      applied to the last row carrying it, and its names and types are
      never empty. */
  lemma {:induction false} LoadedSpec(list: seq<Project>)
    requires forall j :: 0 <= j < |list| ==> Valid(list[j])
    ensures UniqueIds(Loaded(list))
    ensures forall id :: Get(Loaded(list), id) ==
              (if LastWithId(list, id).Some? then Some(WithDefaults(LastWithId(list, id).value)) else None)
    ensures forall j :: 0 <= j < |Loaded(list)| ==>
              Valid(Loaded(list)[j]) && Loaded(list)[j].name != "" && Loaded(list)[j].kind != ""
    decreases |list|
  {
    if list != [] {
      var init := list[..|list| - 1];
      var last := list[|list| - 1];
      LoadedSpec(init);
      SetByIdSpec(Loaded(init), WithDefaults(last));
      var r := Loaded(list);
      forall j | 0 <= j < |r| ensures Valid(r[j]) && r[j].name != "" && r[j].kind != "" {
        var e := Get(r, r[j].id);
        assert e.Some?;
        if r[j].id == last.id {
          assert e == Some(WithDefaults(last));
        } else {
          assert e == Get(Loaded(init), r[j].id);
        }
        assert e.value == r[j] by {
          assert UniqueIds(r);
        }
      }
    }
  }

  // ---------------------------------------------------------------------
  // bulkUpsertProjects

  /** The row `bulkUpsertProjects` and `upsertProject` build: trimmed id and
      cwd, and the name and type only when given. */
  function NextRow(p: Project): Project
  {
    Project(Trim(p.id), p.name, Trim(p.cwd), p.kind)
  }

  /** A row given to `bulkUpsertProjects` that it takes: non-empty trimmed id
      and cwd. */
  predicate Accepted(p: Project)
  {
    !IsBlank(p.id) && !IsBlank(p.cwd)
  }

  /** `{ ...existing, ...next }`: the new id and cwd, and the existing name
      and type where the new row has none. */
  function Merge(existing: Option<Project>, next: Project): (r: Project)
    ensures r.id == next.id && r.cwd == next.cwd
    ensures next.name != "" ==> r.name == next.name
    ensures next.kind != "" ==> r.kind == next.kind
    ensures existing.Some? && next.name == "" ==> r.name == existing.value.name
    ensures existing.Some? && next.kind == "" ==> r.kind == existing.value.kind
    ensures existing.None? ==> r == next
  {
    match existing
    case None => next
    case Some(e) =>
      Project(next.id, if next.name != "" then next.name else e.name, next.cwd,
              if next.kind != "" then next.kind else e.kind)
  }

  /** One step of the loop of `bulkUpsertProjects`. */
  function UpsertOne(byId: seq<Project>, p: Project): seq<Project>
  {
    if !Accepted(p) then byId
    else
      var next := NextRow(p);
      SetById(byId, Merge(Get(byId, next.id), next))
  }

  /** The Map after every given row has been upserted in order. */
  function UpsertAll(byId: seq<Project>, ps: seq<Project>): seq<Project>
    decreases |ps|
  {
    if ps == [] then byId else UpsertOne(UpsertAll(byId, ps[..|ps| - 1]), ps[|ps| - 1])
  }

  /** Upserting keeps ids unique, gives every accepted row's id an entry
      with its cwd when it is the last row for that id, and leaves every id
      no accepted row names as it was. */
  lemma {:induction false} UpsertAllSpec(byId: seq<Project>, ps: seq<Project>)
    requires UniqueIds(byId)
    ensures UniqueIds(UpsertAll(byId, ps))
    ensures forall id :: (forall j :: 0 <= j < |ps| && Accepted(ps[j]) ==> Trim(ps[j].id) != id) ==>
              Get(UpsertAll(byId, ps), id) == Get(byId, id)
    ensures ps != [] && Accepted(ps[|ps| - 1]) ==>
              Get(UpsertAll(byId, ps), Trim(ps[|ps| - 1].id)).Some?
              && Get(UpsertAll(byId, ps), Trim(ps[|ps| - 1].id)).value.cwd == Trim(ps[|ps| - 1].cwd)
    decreases |ps|
  {
    if ps != [] {
      var init := ps[..|ps| - 1];
      var last := ps[|ps| - 1];
      UpsertAllSpec(byId, init);
      var m := UpsertAll(byId, init);
      UpsertOneSpec(m, last);
      forall id | (forall j :: 0 <= j < |ps| && Accepted(ps[j]) ==> Trim(ps[j].id) != id)
        ensures Get(UpsertAll(byId, ps), id) == Get(byId, id)
      {
        assert forall j :: 0 <= j < |init| ==> init[j] == ps[j];
        assert Get(m, id) == Get(byId, id);
      }
    }
  }

  /** One upsert keeps ids unique, gives an accepted row's trimmed id an
      entry with its trimmed cwd, and leaves every other id as it was. */
  lemma UpsertOneSpec(m: seq<Project>, p: Project)
    requires UniqueIds(m)
    ensures UniqueIds(UpsertOne(m, p))
    ensures forall id :: (!Accepted(p) || Trim(p.id) != id) ==> Get(UpsertOne(m, p), id) == Get(m, id)
    ensures Accepted(p) ==> Get(UpsertOne(m, p), Trim(p.id)) == Some(Merge(Get(m, Trim(p.id)), NextRow(p)))
  {
    if Accepted(p) {
      SetByIdSpec(m, Merge(Get(m, Trim(p.id)), NextRow(p)));
    }
  }

  /** Some row of the prefix is accepted. */
  predicate AnyAccepted(ps: seq<Project>)
  {
    exists j :: 0 <= j < |ps| && Accepted(ps[j])
  }

  /** The Map is never emptied by upserts, and an accepted row makes it
      non-empty. */
  lemma {:induction false} UpsertAllNonEmpty(byId: seq<Project>, ps: seq<Project>)
    requires byId != [] || AnyAccepted(ps)
    ensures UpsertAll(byId, ps) != []
    decreases |ps|
  {
    if ps != [] {
      var init := ps[..|ps| - 1];
      var last := ps[|ps| - 1];
      var m := UpsertAll(byId, init);
      if Accepted(last) {
        var q := Merge(Get(m, Trim(last.id)), NextRow(last));
        assert SetById(m, q) != [];
      } else {
        assert byId != [] || AnyAccepted(init) by {
          if byId == [] {
            var j :| 0 <= j < |ps| && Accepted(ps[j]);
            assert j != |init|;
            assert init[j] == ps[j];
          }
        }
        UpsertAllNonEmpty(byId, init);
      }
    }
  }

  /** One more row is accepted somewhere exactly when it or an earlier row
      is. */
  lemma AnyAcceptedSnoc(pre: seq<Project>, p: Project)
    ensures AnyAccepted(pre + [p]) <==> AnyAccepted(pre) || Accepted(p)
  {
    Seqs.ExistsSnoc(Accepted, pre, p);
  }

  /** Upserting one more given row is one more step of the loop. */
  lemma UpsertAllSnoc(byId: seq<Project>, given: seq<Project>, i: nat)
    requires i < |given|
    ensures UpsertAll(byId, given[..i + 1]) == UpsertOne(UpsertAll(byId, given[..i]), given[i])
    ensures AnyAccepted(given[..i + 1]) <==> AnyAccepted(given[..i]) || Accepted(given[i])
  {
    assert given[..i + 1] == given[..i] + [given[i]];
    assert UpsertAll(byId, given[..i + 1]) == UpsertOne(UpsertAll(byId, given[..i]), given[i]) by {
      var ext := given[..i + 1];
      assert ext[..i] == given[..i] && ext[i] == given[i];
    }
    AnyAcceptedSnoc(given[..i], given[i]);
  }

  /** What `bulkUpsertProjects` reports. */
  datatype BulkResult = BulkResult(changed: bool, count: nat)

  // ---------------------------------------------------------------------
  // upsertProject and removeProject on the rows

  /** The rows after `upsertProject`: the first row with the id is merged
      in place, else the new row is added at the end. */
  function UpsertRow(list: seq<Project>, next: Project): seq<Project>
  {
    var i := IndexOfId(list, next.id);
    if i >= 0 then list[i := Merge(Some(list[i]), next)] else list + [next]
  }

  /** Upserting a row keeps every other row where it was, puts a row with the
      new id and cwd at the first position of that id or at the end, and
      keeps the ids unique. */
  lemma UpsertRowSpec(list: seq<Project>, next: Project)
    ensures var r := UpsertRow(list, next);
            var i := IndexOfId(list, next.id);
            (i >= 0 ==> |r| == |list| && r[i].id == next.id && r[i].cwd == next.cwd
                        && forall j :: 0 <= j < |list| && j != i ==> r[j] == list[j])
            && (i < 0 ==> r == list + [next])
    ensures UniqueIds(list) ==> UniqueIds(UpsertRow(list, next))
  {
  }

  /** The rows without those carrying `id` (`list.filter(p => p.id !== id)`). */
  function RemoveId(list: seq<Project>, id: string): (r: seq<Project>)
    ensures |r| <= |list|
    ensures forall j :: 0 <= j < |r| ==> r[j].id != id && r[j] in list
    decreases |list|
  {
    if list == [] then []
    else if list[0].id == id then RemoveId(list[1..], id)
    else [list[0]] + RemoveId(list[1..], id)
  }

  /** Filtering keeps every row without the id, and it shortens the rows
      exactly when one of them carries the id. */
  lemma {:induction false} RemoveIdSpec(list: seq<Project>, id: string)
    ensures forall p :: p in list && p.id != id ==> p in RemoveId(list, id)
    ensures |RemoveId(list, id)| == |list| <==> Get(list, id).None?
    decreases |list|
  {
    if list != [] {
      RemoveIdSpec(list[1..], id);
      assert forall j :: 1 <= j < |list| ==> list[j] == list[1..][j - 1];
      if Get(list, id).None? {
        assert Get(list[1..], id).None?;
      } else if list[0].id != id {
        var k :| 0 <= k < |list| && list[k].id == id;
        assert list[1..][k - 1].id == id;
      }
    }
  }

  // ---------------------------------------------------------------------
  // scanDevelopmentRoot

  /** The ids of the rows, empty ones left out (`usedIds`). */
  function IdsOf(list: seq<Project>): set<string>
  {
    set j | 0 <= j < |list| && list[j].id != "" :: list[j].id
  }

  /** The cwds of the rows, empty ones left out (`usedCwds`). */
  function CwdsOf(list: seq<Project>): set<string>
  {
    set j | 0 <= j < |list| && list[j].cwd != "" :: list[j].cwd
  }

  /** The slug with the numeric suffix "-n". */
  function Suffixed(slug: string, n: nat): (r: string)
    ensures StartsWith(r, slug)
  {
    slug + "-" + NatToString(n)
  }

  /** Different numbers give different suffixed ids. */
  lemma SuffixedInjective(slug: string, m: nat, n: nat)
    requires Suffixed(slug, m) == Suffixed(slug, n)
    ensures m == n
  {
    assert Suffixed(slug, m)[|slug| + 1..] == NatToString(m);
    assert Suffixed(slug, n)[|slug| + 1..] == NatToString(n);
    DecimalRoundTrip(m);
    DecimalRoundTrip(n);
  }

  /** The suffixed ids for the numbers 2 to n - 1. */
  function Taken(slug: string, n: nat): set<string>
  {
    set m | 2 <= m < n :: Suffixed(slug, m)
  }

  /** There are n - 2 of them. */
  lemma {:induction false} TakenCount(slug: string, n: nat)
    requires n >= 2
    ensures |Taken(slug, n)| == n - 2
    decreases n
  {
    if n > 2 {
      TakenCount(slug, n - 1);
      assert Taken(slug, n) == Taken(slug, n - 1) + {Suffixed(slug, n - 1)};
      if Suffixed(slug, n - 1) in Taken(slug, n - 1) {
        var m :| 2 <= m < n - 1 && Suffixed(slug, m) == Suffixed(slug, n - 1);
        SuffixedInjective(slug, m, n - 1);
      }
    } else {
      assert Taken(slug, n) == {};
    }
  }

  /** The id the scan gives a folder whose slug is `slug`, given the ids in
      use: the slug itself when it is free, else the slug with the smallest
      suffix n >= 2 that is free. */
  ghost predicate IdChoice(id: string, slug: string, used: set<string>)
  {
    (slug !in used && id == slug)
    || (slug in used && exists n: nat :: n >= 2 && id == Suffixed(slug, n) && id !in used
                                         && forall m :: 2 <= m < n ==> Suffixed(slug, m) in used)
  }

  /** A folder under the root with the slug of its name. */
  datatype Folder = Folder(name: string, slug: string)

  /** The folders named `names`, each with `_slugifyId(name)`. */
  function FoldersOf(names: seq<string>): (r: seq<Folder>)
    ensures |r| == |names|
    ensures forall j :: 0 <= j < |names| ==> r[j] == Folder(names[j], Slugs.Slugify(names[j]))
  {
    seq(|names|, j requires 0 <= j < |names| => Folder(names[j], Slugs.Slugify(names[j])))
  }

  /** A folder the scan passes over: hidden or unnamed, already registered
      under its cwd, or without a slug. */
  predicate Skipped(f: Folder, usedCwds: set<string>, root: string)
  {
    f.name == [] || f.name[0] == '.' || Paths.ChildPath(root, f.name) in usedCwds || f.slug == []
  }

  /** The folders the scan registers, in order: visible, with a non-empty
      slug and a cwd that is neither registered nor taken by an earlier
      folder. */
  function Eligible(folders: seq<Folder>, usedCwds: set<string>, root: string): seq<Folder>
    decreases |folders|
  {
    if folders == [] then []
    else
      var f := folders[0];
      if Skipped(f, usedCwds, root) then Eligible(folders[1..], usedCwds, root)
      else [f] + Eligible(folders[1..], usedCwds + {Paths.ChildPath(root, f.name)}, root)
  }

  /** The scan's invariant on the eligible folders, carried over one more
      folder: those chosen so far followed by those still eligible. */
  lemma EligibleStep(done: seq<Folder>, folders: seq<Folder>, k: nat, usedCwds: set<string>, root: string, target: seq<Folder>)
    requires k < |folders|
    requires done + Eligible(folders[k..], usedCwds, root) == target
    ensures Skipped(folders[k], usedCwds, root) ==>
              done + Eligible(folders[k + 1..], usedCwds, root) == target
    ensures !Skipped(folders[k], usedCwds, root) ==>
              (done + [folders[k]]) + Eligible(folders[k + 1..], usedCwds + {Paths.ChildPath(root, folders[k].name)}, root) == target
  {
    assert folders[k..][1..] == folders[k + 1..];
  }

  /** The ids given to the added rows. */
  function AddedIds(ps: seq<Project>): set<string>
    decreases |ps|
  {
    if ps == [] then {} else AddedIds(ps[..|ps| - 1]) + {ps[|ps| - 1].id}
  }

  /** The cwds of the added rows. */
  function AddedCwds(ps: seq<Project>): set<string>
    decreases |ps|
  {
    if ps == [] then {} else AddedCwds(ps[..|ps| - 1]) + {ps[|ps| - 1].cwd}
  }

  /** The smallest n >= 2 whose suffixed id is free: the `while` search. */
  method FreeSuffix(slug: string, used: set<string>) returns (n: nat)
    ensures n >= 2 && Suffixed(slug, n) !in used
    ensures forall m :: 2 <= m < n ==> Suffixed(slug, m) in used
  {
    n := 2;
    while Suffixed(slug, n) in used
      invariant n >= 2
      invariant Taken(slug, n) <= used
      invariant forall m :: 2 <= m < n ==> Suffixed(slug, m) in used
      decreases |used| + 2 - n
    {
      TakenCount(slug, n);
      assert Taken(slug, n + 1) == Taken(slug, n) + {Suffixed(slug, n)};
      TakenCount(slug, n + 1);
      assert |Taken(slug, n + 1)| <= |used| by {
        SubsetCard(Taken(slug, n + 1), used);
      }
      n := n + 1;
    }
  }

  /** A subset is no larger than its superset. */
  lemma SubsetCard(a: set<string>, b: set<string>)
    requires a <= b
    ensures |a| <= |b|
  {
    assert b == a + (b - a);
  }

  /** The row the scan adds for folder `f`, given the ids in use before it
      and the cwds registered in the file: the folder's name, its cwd under
      the root, the given type, and a fresh id chosen by `IdChoice` from its
      slug. */
  ghost predicate RowChosen(row: Project, f: Folder, used: set<string>, registeredCwds: set<string>, root: string, kind: string)
  {
    row.name == f.name && row.cwd == Paths.ChildPath(root, f.name) && row.kind == kind
    && f.name != [] && f.name[0] != '.'
    && row.cwd !in registeredCwds
    && row.id !in used && IdChoice(row.id, f.slug, used)
  }

  /** The added rows are those of the chosen folders, in order, each chosen
      against the registered ids and the ids of the rows before it. */
  ghost predicate RowsChosen(added: seq<Project>, chosen: seq<Folder>, usedIds: set<string>, usedCwds: set<string>, root: string, kind: string)
    decreases |added|
  {
    |added| == |chosen|
    && (added == []
        || (var init := added[..|added| - 1];
            RowsChosen(init, chosen[..|chosen| - 1], usedIds, usedCwds, root, kind)
            && RowChosen(added[|added| - 1], chosen[|chosen| - 1], usedIds + AddedIds(init), usedCwds, root, kind)))
  }

  /** Chosen rows have distinct ids, none of them registered before, and
      their ids are those `AddedIds` collects. */
  lemma {:induction false} RowsChosenFresh(added: seq<Project>, chosen: seq<Folder>, usedIds: set<string>, usedCwds: set<string>, root: string, kind: string)
    requires RowsChosen(added, chosen, usedIds, usedCwds, root, kind)
    ensures UniqueIds(added)
    ensures forall j :: 0 <= j < |added| ==> added[j].id !in usedIds && added[j].id in AddedIds(added)
    decreases |added|
  {
    if added != [] {
      var init := added[..|added| - 1];
      var last := added[|added| - 1];
      RowsChosenFresh(init, chosen[..|chosen| - 1], usedIds, usedCwds, root, kind);
      assert last.id !in usedIds + AddedIds(init);
      assert added == init + [last];
      FreshSnoc(init, last, usedIds);
    }
  }

  /** A row whose id is neither registered nor added yet keeps the added
      ids distinct and unregistered. */
  lemma FreshSnoc(init: seq<Project>, last: Project, usedIds: set<string>)
    requires UniqueIds(init)
    requires forall j :: 0 <= j < |init| ==> init[j].id !in usedIds && init[j].id in AddedIds(init)
    requires last.id !in usedIds + AddedIds(init)
    ensures UniqueIds(init + [last])
    ensures forall j :: 0 <= j < |init + [last]| ==>
              (init + [last])[j].id !in usedIds && (init + [last])[j].id in AddedIds(init + [last])
  {
    var added := init + [last];
    assert added[..|added| - 1] == init;
    assert AddedIds(added) == AddedIds(init) + {last.id};
    forall j | 0 <= j < |added| ensures added[j].id !in usedIds && added[j].id in AddedIds(added) {
      if j < |init| {
        assert added[j] == init[j];
      }
    }
    forall i, j | 0 <= i < j < |added| ensures added[i].id != added[j].id {
      assert added[i] == init[i];
      if j < |init| {
        assert added[j] == init[j];
      }
    }
  }

  /** The state of the scan after the first k folders: the ids and cwds in
      use are the given ones and those of the added rows, and the added rows
      are those of the folders chosen so far, which are the first of the
      eligible ones. */
  ghost predicate ScanInv(folders: seq<Folder>, k: nat, added: seq<Project>, chosen: seq<Folder>,
                          ids: set<string>, cwds: set<string>,
                          usedIds: set<string>, usedCwds: set<string>, root: string, kind: string)
  {
    k <= |folders|
    && ids == usedIds + AddedIds(added)
    && cwds == usedCwds + AddedCwds(added)
    && chosen + Eligible(folders[k..], cwds, root) == Eligible(folders, usedCwds, root)
    && RowsChosen(added, chosen, usedIds, usedCwds, root, kind)
  }

  /** One folder of the scan keeps its state. */
  lemma ScanInvStep(folders: seq<Folder>, k: nat, added: seq<Project>, chosen: seq<Folder>,
                    ids: set<string>, cwds: set<string>,
                    usedIds: set<string>, usedCwds: set<string>, root: string, kind: string, row: Option<Project>)
    requires ScanInv(folders, k, added, chosen, ids, cwds, usedIds, usedCwds, root, kind) && k < |folders|
    requires row.None? <==> Skipped(folders[k], cwds, root)
    requires row.Some? ==> RowChosen(row.value, folders[k], ids, cwds, root, kind)
    ensures row.None? ==> ScanInv(folders, k + 1, added, chosen, ids, cwds, usedIds, usedCwds, root, kind)
    ensures row.Some? ==>
              ScanInv(folders, k + 1, added + [row.value], chosen + [folders[k]], ids + {row.value.id}, cwds + {row.value.cwd},
                      usedIds, usedCwds, root, kind)
  {
    EligibleStep(chosen, folders, k, cwds, root, Eligible(folders, usedCwds, root));
    if row.Some? {
      AddRow(added, row.value);
      RowChosenFewerCwds(row.value, folders[k], ids, cwds, usedCwds, root, kind);
      RowsChosenSnoc(added, chosen, row.value, folders[k], ids, usedIds, usedCwds, root, kind);
    }
  }

  /** A row chosen against some cwds is chosen against fewer. */
  lemma RowChosenFewerCwds(row: Project, f: Folder, ids: set<string>, cwds: set<string>, fewer: set<string>, root: string, kind: string)
    requires RowChosen(row, f, ids, cwds, root, kind) && fewer <= cwds
    ensures RowChosen(row, f, ids, fewer, root, kind)
  {
  }

  /** Appending a row adds its id and cwd. */
  lemma AddRow(added: seq<Project>, row: Project)
    ensures AddedIds(added + [row]) == AddedIds(added) + {row.id}
    ensures AddedCwds(added + [row]) == AddedCwds(added) + {row.cwd}
  {
    assert (added + [row])[..|added|] == added;
  }

  /** A row chosen against the ids in use extends the chosen rows. */
  lemma RowsChosenSnoc(added: seq<Project>, chosen: seq<Folder>, row: Project, f: Folder, ids: set<string>,
                       usedIds: set<string>, usedCwds: set<string>, root: string, kind: string)
    requires RowsChosen(added, chosen, usedIds, usedCwds, root, kind)
    requires ids == usedIds + AddedIds(added)
    requires RowChosen(row, f, ids, usedCwds, root, kind)
    ensures RowsChosen(added + [row], chosen + [f], usedIds, usedCwds, root, kind)
  {
    assert (added + [row])[..|added|] == added;
    assert (chosen + [f])[..|chosen|] == chosen;
  }

  /** The folders `scanDevelopmentRoot` adds, from the folder names under
      the root and the ids and cwds already registered: one row for each
      eligible folder, in order, each chosen by `RowChosen`, with distinct
      ids none of which was registered. */
  method ScanFolders(root: string, names: seq<string>, usedIds: set<string>, usedCwds: set<string>, kind: string)
    returns (added: seq<Project>)
    ensures RowsChosen(added, Eligible(FoldersOf(names), usedCwds, root), usedIds, usedCwds, root, kind)
    ensures UniqueIds(added)
    ensures forall j :: 0 <= j < |added| ==> added[j].id !in usedIds
    ensures added != [] ==> Accepted(added[0])
  {
    ghost var folders := FoldersOf(names);
    ghost var chosen: seq<Folder> := [];
    var ids := usedIds;
    var cwds := usedCwds;
    added := [];
    ScanStart(folders, usedIds, usedCwds, root, kind);
    for k := 0 to |names|
      invariant ScanInv(folders, k, added, chosen, ids, cwds, usedIds, usedCwds, root, kind)
      invariant added != [] ==> Accepted(added[0])
    {
      added, chosen, ids, cwds := ScanNext(names, folders, k, added, chosen, ids, cwds, usedIds, usedCwds, root, kind);
    }
    ScanDone(folders, added, chosen, ids, cwds, usedIds, usedCwds, root, kind);
  }

  /** The scan's invariant holds before the first folder. */
  lemma ScanStart(folders: seq<Folder>, usedIds: set<string>, usedCwds: set<string>, root: string, kind: string)
    ensures ScanInv(folders, 0, [], [], usedIds, usedCwds, usedIds, usedCwds, root, kind)
  {
    assert folders[0..] == folders;
  }

  /** After the last folder, the rows are those chosen for the eligible
      folders, with distinct ids none of which was registered. */
  lemma ScanDone(folders: seq<Folder>, added: seq<Project>, chosen: seq<Folder>, ids: set<string>, cwds: set<string>,
                 usedIds: set<string>, usedCwds: set<string>, root: string, kind: string)
    requires ScanInv(folders, |folders|, added, chosen, ids, cwds, usedIds, usedCwds, root, kind)
    ensures RowsChosen(added, Eligible(folders, usedCwds, root), usedIds, usedCwds, root, kind)
    ensures UniqueIds(added)
    ensures forall j :: 0 <= j < |added| ==> added[j].id !in usedIds
  {
    assert chosen == Eligible(folders, usedCwds, root) by {
      assert folders[|folders|..] == [];
      assert chosen + [] == chosen;
    }
    RowsChosenFresh(added, chosen, usedIds, usedCwds, root, kind);
  }

  /** One folder of the scan: the row it adds, if any, and the ids and cwds
      taken after it. */
  method ScanNext(names: seq<string>, ghost folders: seq<Folder>, k: nat, added: seq<Project>, ghost chosen: seq<Folder>,
                  ids: set<string>, cwds: set<string>, usedIds: set<string>, usedCwds: set<string>, root: string, kind: string)
    returns (added': seq<Project>, ghost chosen': seq<Folder>, ids': set<string>, cwds': set<string>)
    requires folders == FoldersOf(names) && k < |names|
    requires ScanInv(folders, k, added, chosen, ids, cwds, usedIds, usedCwds, root, kind)
    requires added != [] ==> Accepted(added[0])
    ensures ScanInv(folders, k + 1, added', chosen', ids', cwds', usedIds, usedCwds, root, kind)
    ensures added' != [] ==> Accepted(added'[0])
  {
    var row := ScanStep(names[k], ids, cwds, root, kind);
    assert folders[k] == Folder(names[k], Slugs.Slugify(names[k]));
    ScanInvStep(folders, k, added, chosen, ids, cwds, usedIds, usedCwds, root, kind, row);
    if row.Some? {
      added' := added + [row.value];
      assert added'[0] == if added == [] then row.value else added[0];
      chosen' := chosen + [folders[k]];
      ids' := ids + {row.value.id};
      cwds' := cwds + {row.value.cwd};
    } else {
      added', chosen', ids', cwds' := added, chosen, ids, cwds;
    }
  }

  /** The id for a folder with slug `slug`: the slug, or the slug with the
      first free suffix when the slug is in use. */
  method ChooseId(slug: string, used: set<string>) returns (id: string)
    ensures IdChoice(id, slug, used) && id !in used && StartsWith(id, slug)
  {
    id := slug;
    if slug in used {
      var n := FreeSuffix(slug, used);
      id := Suffixed(slug, n);
      SuffixChoice(slug, used, n);
    }
  }

  /** The smallest free suffix is the id `IdChoice` picks for a slug in use. */
  lemma SuffixChoice(slug: string, used: set<string>, n: nat)
    requires slug in used && n >= 2 && Suffixed(slug, n) !in used
    requires forall m :: 2 <= m < n ==> Suffixed(slug, m) in used
    ensures IdChoice(Suffixed(slug, n), slug, used)
  {
  }

  /** A scanned row, whose id starts with a non-empty slug and whose cwd
      is a path under the root, has an id and a cwd. */
  lemma ScannedRowAccepted(p: Project, slug: string, root: string)
    requires Slugs.IsSlug(slug) && slug != [] && StartsWith(p.id, slug)
    requires p.cwd == Paths.ChildPath(root, p.name)
    ensures Accepted(p)
  {
    assert p.id[0] == slug[0];
    VisibleAt(p.id, 0);
    VisibleAt(p.cwd, if root == "/" then 0 else |root|);
  }

  /** A text with a visible character is not blank. */
  lemma VisibleAt(s: string, i: int)
    requires 0 <= i < |s| && !IsSpace(s[i])
    ensures !IsBlank(s)
  {
    BlankIffAllSpace(s);
  }

  /** One folder of the scan: None when it is hidden, its cwd is in use or
      its slug is empty; otherwise its row, with the id `IdChoice` picks. */
  method ScanStep(name: string, usedIds: set<string>, usedCwds: set<string>, root: string, kind: string)
    returns (row: Option<Project>)
    ensures row.None? <==> Skipped(Folder(name, Slugs.Slugify(name)), usedCwds, root)
    ensures row.Some? ==> RowChosen(row.value, Folder(name, Slugs.Slugify(name)), usedIds, usedCwds, root, kind)
    ensures row.Some? ==> Accepted(row.value)
  {
    if name == [] || name[0] == '.' {
      return None;
    }
    var cwd := Paths.ChildPath(root, name);
    if cwd in usedCwds {
      return None;
    }
    var slug := Slugs.Slugify(name);
    if slug == [] {
      return None;
    }
    var id := ChooseId(slug, usedIds);
    ScannedRowAccepted(Project(id, name, cwd, kind), slug, root);
    return Some(Project(id, name, cwd, kind));
  }

  /** What `scanDevelopmentRoot` reports. */
  datatype ScanResult = ScanResult(added: nat, projects: seq<Project>)

  // ---------------------------------------------------------------------
  // The manager

  class Manager {
    /** The rows of projects.json. */
    var file: seq<Project>
    /** The loaded Map, in insertion order. */
    var projects: seq<Project>

    constructor (rows: seq<Project>)
      ensures file == rows && projects == []
    {
      file := rows;
      projects := [];
    }

    /** `loadProjects()`: the rows are read (an empty file is refused), the
        Map is cleared and refilled with the defaults applied, and the first
        row without id or cwd stops the load with an error, leaving the Map
        holding the rows before it. */
    method LoadProjects() returns (error: Option<string>)
      modifies this
      ensures file == old(file)
      ensures old(file) == [] ==> error == Some(NotNonEmptyArray) && projects == old(projects)
      ensures old(file) != [] && FirstInvalid(file) == |file| ==> error == None && projects == Loaded(file)
      ensures old(file) != [] && FirstInvalid(file) < |file| ==>
                error == Some(MissingFields) && projects == Loaded(file[..FirstInvalid(file)])
    {
      if file == [] {
        return Some(NotNonEmptyArray);
      }
      projects := [];
      var k := 0;
      while k < |file|
        invariant file == old(file)
        invariant 0 <= k <= |file|
        invariant k <= FirstInvalid(file)
        invariant projects == Loaded(file[..k])
      {
        if !Valid(file[k]) {
          return Some(MissingFields);
        }
        assert file[..k + 1][..k] == file[..k];
        projects := SetById(projects, WithDefaults(file[k]));
        k := k + 1;
      }
      assert file[..k] == file;
      return None;
    }

    /** `bulkUpsertProjects(projects)`: every given row with an id and a cwd
        is merged into the Map of the rows by id; when none was, nothing is
        written and the result is unchanged with count 0; otherwise the rows
        are written in Map order, reloaded, and the count is the number of
        rows given. */
    method BulkUpsertProjects(given: seq<Project>) returns (r: Result<BulkResult, string>)
      modifies this
      ensures old(file) == [] ==> r == Failure(NotNonEmptyArray) && file == old(file) && projects == old(projects)
      ensures old(file) != [] && !AnyAccepted(given) ==>
                r == Success(BulkResult(false, 0)) && file == old(file) && projects == old(projects)
      ensures old(file) != [] && AnyAccepted(given) ==>
                file == UpsertAll(Indexed(old(file)), given)
                && (FirstInvalid(file) == |file| ==> r == Success(BulkResult(true, |given|)) && projects == Loaded(file))
                && (FirstInvalid(file) < |file| ==> r == Failure(MissingFields))
    {
      if file == [] {
        return Failure(NotNonEmptyArray);
      }
      var byId := Indexed(file);
      var changed := false;
      for i := 0 to |given|
        invariant file == old(file) && projects == old(projects)
        invariant byId == UpsertAll(Indexed(file), given[..i])
        invariant changed <==> AnyAccepted(given[..i])
      {
        UpsertAllSnoc(Indexed(file), given, i);
        var p := given[i];
        var projectId := Trim(p.id);
        var projectCwd := Trim(p.cwd);
        if projectId == [] || projectCwd == [] {
          assert !Accepted(p);
          continue;
        }
        var next := NextRow(p);
        byId := SetById(byId, Merge(Get(byId, projectId), next));
        changed := true;
      }
      assert given[..|given|] == given;
      if !changed {
        return Success(BulkResult(false, 0));
      }
      UpsertAllNonEmpty(Indexed(file), given);
      file := byId;
      var e := LoadProjects();
      if e.Some? {
        return Failure(e.value);
      }
      return Success(BulkResult(true, |given|));
    }

    /** `upsertProject({ id, cwd, name, type })`: id and cwd are required;
        the first row with the id is merged in place, else the row is added;
        the rows are reloaded and the loaded project with that id returned. */
    method UpsertProject(id: string, cwd: string, name: string, kind: string) returns (r: Result<Option<Project>, string>)
      modifies this
      ensures IsBlank(id) ==> r == Failure(MissingId) && file == old(file) && projects == old(projects)
      ensures !IsBlank(id) && IsBlank(cwd) ==> r == Failure(MissingCwd) && file == old(file) && projects == old(projects)
      ensures !IsBlank(id) && !IsBlank(cwd) && old(file) == [] ==>
                r == Failure(NotNonEmptyArray) && file == old(file) && projects == old(projects)
      ensures !IsBlank(id) && !IsBlank(cwd) && old(file) != [] ==>
                file == UpsertRow(old(file), Project(Trim(id), name, Trim(cwd), kind))
                && (FirstInvalid(file) == |file| ==> projects == Loaded(file) && r == Success(Get(projects, Trim(id))))
                && (FirstInvalid(file) < |file| ==> r == Failure(MissingFields))
    {
      var projectId := Trim(id);
      var projectCwd := Trim(cwd);
      if projectId == [] {
        return Failure(MissingId);
      }
      if projectCwd == [] {
        return Failure(MissingCwd);
      }
      if file == [] {
        return Failure(NotNonEmptyArray);
      }
      var next := Project(projectId, name, projectCwd, kind);
      var idx := IndexOfId(file, projectId);
      ghost var before := file;
      if idx >= 0 {
        file := file[idx := Merge(Some(file[idx]), next)];
      } else {
        file := file + [next];
      }
      assert file == UpsertRow(before, next) && file != [];
      var e := LoadProjects();
      if e.Some? {
        return Failure(e.value);
      }
      return Success(Get(projects, projectId));
    }

    /** `removeProject(id)`: the id is required; the rows without it are
        kept, removing the last row is refused, an absent id gives false
        without writing, and otherwise the rows are written and reloaded. */
    method RemoveProject(id: string) returns (r: Result<bool, string>)
      modifies this
      ensures IsBlank(id) ==> r == Failure(MissingId) && file == old(file) && projects == old(projects)
      ensures !IsBlank(id) && old(file) == [] ==>
                r == Failure(NotNonEmptyArray) && file == old(file) && projects == old(projects)
      ensures !IsBlank(id) && old(file) != [] && RemoveId(old(file), Trim(id)) == [] ==>
                r == Failure(LastProject) && file == old(file) && projects == old(projects)
      ensures !IsBlank(id) && old(file) != [] && RemoveId(old(file), Trim(id)) != [] && Get(old(file), Trim(id)).None? ==>
                r == Success(false) && file == old(file) && projects == old(projects)
      ensures !IsBlank(id) && old(file) != [] && RemoveId(old(file), Trim(id)) != [] && Get(old(file), Trim(id)).Some? ==>
                file == RemoveId(old(file), Trim(id))
                && (FirstInvalid(file) == |file| ==> r == Success(true) && projects == Loaded(file))
                && (FirstInvalid(file) < |file| ==> r == Failure(MissingFields))
    {
      var projectId := Trim(id);
      if projectId == [] {
        return Failure(MissingId);
      }
      if file == [] {
        return Failure(NotNonEmptyArray);
      }
      var next := RemoveId(file, projectId);
      if next == [] {
        return Failure(LastProject);
      }
      RemoveIdSpec(file, projectId);
      if |next| == |file| {
        return Success(false);
      }
      file := next;
      var e := LoadProjects();
      if e.Some? {
        return Failure(e.value);
      }
      return Success(true);
    }

    /** `getProject(id)`. */
    function GetProject(id: string): (r: Option<Project>)
      reads this
      ensures r.Some? ==> r.value in projects && r.value.id == id
      ensures r.None? <==> forall j :: 0 <= j < |projects| ==> projects[j].id != id
    {
      Get(projects, id)
    }

    /** `getDefaultProject()` for the configured default id: that project
        when it is loaded, else the first loaded project, else an error. */
    function GetDefaultProject(defaultId: string): (r: Result<Project, string>)
      reads this
      ensures defaultId != "" && Get(projects, defaultId).Some? ==> r == Success(Get(projects, defaultId).value)
      ensures (defaultId == "" || Get(projects, defaultId).None?) && projects != [] ==> r == Success(projects[0])
      ensures r.Failure? <==> projects == []
      ensures r.Success? ==> r.value in projects
    {
      if defaultId != "" && Get(projects, defaultId).Some? then Success(Get(projects, defaultId).value)
      else if projects != [] then Success(projects[0])
      else Failure(NoProjects)
    }

    /** `scanDevelopmentRoot({ type })` under the resolved root with the
        given folder names: a root that is not a directory and an empty
        file are errors; without a folder to add nothing changes; otherwise
        the added rows are upserted in bulk. */
    method ScanDevelopmentRoot(root: string, rootIsDirectory: bool, names: seq<string>, kind: string)
      returns (r: Result<ScanResult, string>)
      modifies this
      ensures !rootIsDirectory ==> r == Failure(NotADirectory + root) && file == old(file) && projects == old(projects)
      ensures rootIsDirectory && old(file) == [] ==>
                r == Failure(NotNonEmptyArray) && file == old(file) && projects == old(projects)
      ensures rootIsDirectory && old(file) != [] && Eligible(FoldersOf(names), CwdsOf(old(file)), root) == [] ==>
                r == Success(ScanResult(0, [])) && file == old(file) && projects == old(projects)
      ensures r.Success? && r.value.added > 0 ==>
                r.value.added == |r.value.projects|
                && RowsChosen(r.value.projects, Eligible(FoldersOf(names), CwdsOf(old(file)), root),
                              IdsOf(old(file)), CwdsOf(old(file)), root, kind)
                && file == UpsertAll(Indexed(old(file)), r.value.projects)
      ensures r.Failure? && rootIsDirectory && old(file) != [] ==>
                r == Failure(MissingFields) && FirstInvalid(file) < |file|
    {
      if !rootIsDirectory {
        return Failure(NotADirectory + root);
      }
      if file == [] {
        return Failure(NotNonEmptyArray);
      }
      var added := ScanFolders(root, names, IdsOf(file), CwdsOf(file), kind);
      if |added| == 0 {
        return Success(ScanResult(0, []));
      }
      assert AnyAccepted(added) by {
        assert Accepted(added[0]);
      }
      var b := BulkUpsertProjects(added);
      if b.Failure? {
        return Failure(b.error);
      }
      return Success(ScanResult(|added|, added));
    }
  }
}

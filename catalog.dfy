/** The static catalog of projects and learning paths, the search/difficulty
    filter over the projects, and the resolution of a learning path's project
    ids into its list of recommended projects. Everything here is pure. */
module Catalog {
  import opened Text
  import opened Sequences

  datatype Option<T> = None | Some(value: T)

  /** A project of the catalog. */
  datatype Project = Project(
    id: int,
    title: string,
    difficulty: string,
    description: string,
    duration: string,
    skills: seq<string>,
    tags: seq<string>)

  /** A learning path; `projects` holds project ids, not projects. */
  datatype LearningPath = LearningPath(
    id: int,
    title: string,
    description: string,
    duration: string,
    difficulty: string,
    projects: seq<int>,
    milestones: seq<string>,
    skills: seq<string>)

  // ---------------------------------------------------------------------------
  // The filter
  // ---------------------------------------------------------------------------

  /** `items.some(x => x.toLowerCase().includes(needle))`. */
  predicate SomeIncludes(items: seq<string>, needle: string) {
    exists k :: 0 <= k < |items| && Includes(Lower(items[k]), needle)
  }

  /** The search half of the filter: an empty query matches everything;
      otherwise the lower-cased query must occur in the lower-cased title,
      description, one of the skills or one of the tags. */
  predicate MatchesSearch(p: Project, query: string) {
    var q := Lower(query);
    query == "" ||
    Includes(Lower(p.title), q) ||
    Includes(Lower(p.description), q) ||
    SomeIncludes(p.skills, q) ||
    SomeIncludes(p.tags, q)
  }

  /** The difficulty half of the filter: `"all"` matches everything; otherwise
      the lower-cased difficulty must equal the filter value as it is. */
  predicate MatchesFilter(p: Project, filter: string) {
    filter == "all" || Lower(p.difficulty) == filter
  }

  /** The callback given to `projects.filter`. */
  predicate Keep(p: Project, query: string, filter: string) {
    MatchesSearch(p, query) && MatchesFilter(p, filter)
  }

  /** The callback given to `projects.filter`, as a function value. */
  function KeepFn(query: string, filter: string): Project -> bool {
    p => Keep(p, query, filter)
  }

  /** `projects.filter(...)`: the projects that the query and the difficulty
      filter both accept, in catalog order. */
  function Filter(catalog: seq<Project>, query: string, filter: string): (r: seq<Project>)
    ensures |r| <= |catalog|
    ensures forall p :: p in r <==> p in catalog && Keep(p, query, filter)
  {
    FilterByMembership(catalog, KeepFn(query, filter));
    FilterBy(catalog, KeepFn(query, filter))
  }

  /** The filtered list is the catalog with exactly the rejected positions
      removed: the positions it keeps are, in increasing order, precisely those
      whose project passes the filter. */
  lemma FilterKeepsExactlyThePassingPositions(catalog: seq<Project>, query: string, filter: string)
    returns (idx: seq<nat>)
    ensures PicksOut(Filter(catalog, query, filter), catalog, idx)
    ensures forall j :: 0 <= j < |catalog| ==> (j in idx <==> Keep(catalog[j], query, filter))
  {
    idx := FilterByKeepsExactlyThePassingPositions(catalog, KeepFn(query, filter));
  }

  /** With an empty query and the filter `"all"` the whole catalog is shown. */
  lemma FilterNothingShowsAll(catalog: seq<Project>)
    ensures Filter(catalog, "", "all") == catalog
  {
    FilterByKeepingAllIsIdentity(catalog, KeepFn("", "all"));
  }

  /** Filtering a concatenation filters each part: the filter looks at one
      project at a time and keeps catalog order. */
  lemma FilterDistributesOverConcat(a: seq<Project>, b: seq<Project>, query: string, filter: string)
    ensures Filter(a + b, query, filter) == Filter(a, query, filter) + Filter(b, query, filter)
  {
    FilterByDistributesOverConcat(a, b, KeepFn(query, filter));
  }

  /** Applying the same filter again changes nothing. */
  lemma FilterIsIdempotent(catalog: seq<Project>, query: string, filter: string)
    ensures Filter(Filter(catalog, query, filter), query, filter) == Filter(catalog, query, filter)
  {
    var keep := KeepFn(query, filter);
    FilterByTwiceIsFilterByBoth(catalog, keep, keep, keep);
  }

  /** Query and difficulty filter combine as an intersection: filtering by
      both is filtering by the query alone and then by the difficulty alone. */
  lemma FilterIsSearchThenDifficulty(catalog: seq<Project>, query: string, filter: string)
    ensures Filter(catalog, query, filter) == Filter(Filter(catalog, query, "all"), "", filter)
  {
    FilterByTwiceIsFilterByBoth(catalog, KeepFn(query, "all"), KeepFn("", filter), KeepFn(query, filter));
  }

  /** The search is case-insensitive in the query: searching for the
      lower-cased query shows the same projects. */
  lemma FilterIgnoresQueryCase(catalog: seq<Project>, query: string, filter: string)
    ensures Filter(catalog, Lower(query), filter) == Filter(catalog, query, filter)
  {
    LowerIsIdempotent(query);
    FilterByAgreeingCallbacks(catalog, KeepFn(Lower(query), filter), KeepFn(query, filter));
  }

  /** The difficulty filter is compared as it is, so a filter value holding an
      upper-case letter (`"Beginner"`) matches no project at all. */
  lemma FilterWithUpperCaseValueShowsNothing(catalog: seq<Project>, query: string, filter: string, i: nat)
    requires i < |filter| && IsUpper(filter[i])
    ensures Filter(catalog, query, filter) == []
  {
    forall k | 0 <= k < |catalog| ensures !KeepFn(query, filter)(catalog[k]) {
      if Lower(catalog[k].difficulty) == filter {
        LowerHasNoUpper(catalog[k].difficulty, i);
      }
    }
    FilterByRejectingAllIsEmpty(catalog, KeepFn(query, filter));
  }

  // ---------------------------------------------------------------------------
  // Recommended projects of a learning path
  // ---------------------------------------------------------------------------

  /** Position `k` holds the first project of `catalog` whose id is `id`. */
  predicate FirstWithId(catalog: seq<Project>, id: int, k: int) {
    0 <= k < |catalog| && catalog[k].id == id && forall j :: 0 <= j < k ==> catalog[j].id != id
  }

  /** `projects.find(p => p.id === id)`: the first project with that id, or
      nothing when no project has it. */
  function FindById(catalog: seq<Project>, id: int): (r: Option<Project>)
    ensures r.None? <==> forall k :: 0 <= k < |catalog| ==> catalog[k].id != id
    ensures forall k :: FirstWithId(catalog, id, k) ==> r == Some(catalog[k])
  {
    if catalog == [] then None
    else if catalog[0].id == id then Some(catalog[0])
    else
      assert forall k :: FirstWithId(catalog, id, k) ==> FirstWithId(catalog[1..], id, k - 1);
      FindById(catalog[1..], id)
  }

  /** A found project has the id asked for and is the first such project. */
  lemma {:induction false} FindByIdFindsFirst(catalog: seq<Project>, id: int)
    requires FindById(catalog, id).Some?
    ensures exists k :: FirstWithId(catalog, id, k) && FindById(catalog, id) == Some(catalog[k])
  {
    if catalog[0].id == id {
      assert FirstWithId(catalog, id, 0);
    } else {
      FindByIdFindsFirst(catalog[1..], id);
      var k :| FirstWithId(catalog[1..], id, k);
      assert FirstWithId(catalog, id, k + 1);
    }
  }

  /** The caption of a recommended project's button. */
  datatype Label = Start | Locked

  /** Only the entry at index 0 of the path's id list is labelled Start. */
  function LabelAt(position: nat): Label {
    if position == 0 then Start else Locked
  }

  /** One rendered entry: the index of its id in the path's id list, the
      project that id resolved to, and its button caption. */
  datatype Recommendation = Recommendation(position: nat, project: Project, caption: Label)

  /** `path.projects.map((id, index) => ...)` with the ids that resolve to no
      project dropped. Each entry keeps the index of its id in the list. */
  function Recommended(catalog: seq<Project>, ids: seq<int>): (r: seq<Recommendation>)
    ensures |r| <= |ids|
  {
    if ids == [] then []
    else
      var i := |ids| - 1;
      Recommended(catalog, ids[..i]) +
        match FindById(catalog, ids[i])
        case None => []
        case Some(p) => [Recommendation(i, p, LabelAt(i))]
  }

  /** Every entry comes from an id of the path: its project is what
      `FindById` resolves that id to, and its caption is set by its index. */
  lemma {:induction false} RecommendedEntriesResolveTheirIds(catalog: seq<Project>, ids: seq<int>)
    ensures forall k :: 0 <= k < |Recommended(catalog, ids)| ==>
      var e := Recommended(catalog, ids)[k];
      e.position < |ids| && FindById(catalog, ids[e.position]) == Some(e.project) && e.caption == LabelAt(e.position)
    decreases |ids|
  {
    if ids != [] {
      var i := |ids| - 1;
      var front := Recommended(catalog, ids[..i]);
      var r := Recommended(catalog, ids);
      RecommendedEntriesResolveTheirIds(catalog, ids[..i]);
      forall k | 0 <= k < |r|
        ensures r[k].position < |ids| && FindById(catalog, ids[r[k].position]) == Some(r[k].project) && r[k].caption == LabelAt(r[k].position)
      {
        if k < |front| {
          assert r[k] == front[k];
          assert ids[..i][front[k].position] == ids[front[k].position];
        }
      }
    }
  }

  /** Entries follow the order of the ids in the path. */
  lemma {:induction false} RecommendedFollowsIdOrder(catalog: seq<Project>, ids: seq<int>)
    ensures forall k, l :: 0 <= k < l < |Recommended(catalog, ids)| ==>
      Recommended(catalog, ids)[k].position < Recommended(catalog, ids)[l].position
    decreases |ids|
  {
    if ids != [] {
      var i := |ids| - 1;
      var front := Recommended(catalog, ids[..i]);
      var r := Recommended(catalog, ids);
      RecommendedFollowsIdOrder(catalog, ids[..i]);
      RecommendedEntriesResolveTheirIds(catalog, ids[..i]);
      forall k, l | 0 <= k < l < |r| ensures r[k].position < r[l].position {
        assert r[k] == front[k];
        if l < |front| {
          assert r[l] == front[l];
        }
      }
    }
  }

  /** Some entry of `r` stands for the id at index `i` of the path. */
  predicate HasEntryFor(r: seq<Recommendation>, i: nat) {
    exists k :: 0 <= k < |r| && r[k].position == i
  }

  /** Every id of the path that resolves to a project has its entry. */
  lemma {:induction false} RecommendedKeepsEveryResolvingId(catalog: seq<Project>, ids: seq<int>)
    ensures forall i :: 0 <= i < |ids| && FindById(catalog, ids[i]).Some? ==> HasEntryFor(Recommended(catalog, ids), i)
    decreases |ids|
  {
    if ids != [] {
      var last := |ids| - 1;
      var front := Recommended(catalog, ids[..last]);
      var r := Recommended(catalog, ids);
      RecommendedKeepsEveryResolvingId(catalog, ids[..last]);
      forall i | 0 <= i < |ids| && FindById(catalog, ids[i]).Some?
        ensures HasEntryFor(r, i)
      {
        if i < last {
          assert ids[..last][i] == ids[i];
          assert HasEntryFor(front, i);
          var k :| 0 <= k < |front| && front[k].position == i;
          assert r[k] == front[k];
        } else {
          var p := FindById(catalog, ids[last]).value;
          assert r == front + [Recommendation(last, p, LabelAt(last))];
          assert r[|front|].position == i;
        }
      }
    }
  }

  /** The path's ids that get an entry are exactly those that resolve to a
      project. */
  lemma RecommendedHasEntryExactlyForResolvingIds(catalog: seq<Project>, ids: seq<int>)
    ensures forall i :: 0 <= i < |ids| ==>
      (HasEntryFor(Recommended(catalog, ids), i) <==> FindById(catalog, ids[i]).Some?)
  {
    var r := Recommended(catalog, ids);
    RecommendedEntriesResolveTheirIds(catalog, ids);
    RecommendedKeepsEveryResolvingId(catalog, ids);
    forall i | 0 <= i < |ids| && HasEntryFor(r, i)
      ensures FindById(catalog, ids[i]).Some?
    {
      var k :| 0 <= k < |r| && r[k].position == i;
    }
  }

  /** At most the first entry is labelled Start, and it is exactly when the
      path's first id resolves to a project. */
  lemma RecommendedStartsOnlyFirst(catalog: seq<Project>, ids: seq<int>)
    ensures forall k :: 0 < k < |Recommended(catalog, ids)| ==> Recommended(catalog, ids)[k].caption == Locked
    ensures (|Recommended(catalog, ids)| > 0 && Recommended(catalog, ids)[0].caption == Start)
        <==> (|ids| > 0 && FindById(catalog, ids[0]).Some?)
  {
    var r := Recommended(catalog, ids);
    RecommendedEntriesResolveTheirIds(catalog, ids);
    RecommendedFollowsIdOrder(catalog, ids);
    RecommendedKeepsEveryResolvingId(catalog, ids);
    if |ids| > 0 && FindById(catalog, ids[0]).Some? {
      assert HasEntryFor(r, 0);
      var k :| 0 <= k < |r| && r[k].position == 0;
    }
  }
}

/**
 * The project gallery: the shipped project records, the filter buttons and
 * the category filter that decides which records are shown.
 */
module Projects {

  /** The category union of a project record; `All` doubles as the wildcard filter. */
  datatype Category = All | React | UiUx | OpenSource

  datatype Project = Project(id: int, title: string, category: Category, tech: seq<string>)

  /** The text of a category, as the record stores it and the filter button shows it. */
  function Label(c: Category): string {
    match c
    case All => "All"
    case React => "React"
    case UiUx => "UI/UX"
    case OpenSource => "Open Source"
  }

  /** Comparing labels is the same as comparing categories, so the datatype loses nothing. */
  lemma LabelInjective(a: Category, b: Category)
    ensures Label(a) == Label(b) <==> a == b
  {
  }

  /** The records the gallery ships with. */
  const ProjectData: seq<Project> := [
    Project(1, "E-Commerce Dashboard", React, ["React", "Tailwind", "Redux"]),
    Project(2, "Fintech Landing Page", UiUx, ["Next.js", "Framer Motion"]),
    Project(3, "Task Manager CLI", OpenSource, ["Node.js", "TypeScript"])
  ]

  /** The filter buttons, in display order. */
  const Filters: seq<Category> := [All, React, UiUx, OpenSource]

  /** The filter selected when the section first renders. */
  const InitialFilter: Category := All

  /** The predicate handed to the filter: the wildcard, or an exact category match. */
  predicate Shows(active: Category, p: Project) {
    active == All || p.category == active
  }

  /** `projects.filter(p => Shows(active, p))`: keeps the shown records, in order. */
  function Filter(projects: seq<Project>, active: Category): (r: seq<Project>)
    ensures |r| <= |projects|
    ensures forall p :: p in r ==> p in projects && Shows(active, p)
  {
    if projects == [] then []
    else if Shows(active, projects[0]) then [projects[0]] + Filter(projects[1..], active)
    else Filter(projects[1..], active)
  }

  /** What the gallery renders for the selected filter. */
  function FilteredProjects(active: Category): (r: seq<Project>)
    ensures |r| <= |ProjectData| == 3
  {
    Filter(ProjectData, active)
  }

  /** `xs` is `ys` with some elements removed, the rest kept in their order. */
  predicate IsSubsequence<T(==)>(xs: seq<T>, ys: seq<T>)
    decreases |ys|
  {
    if xs == [] then true
    else if ys == [] then false
    else (xs[0] == ys[0] && IsSubsequence(xs[1..], ys[1..])) || IsSubsequence(xs, ys[1..])
  }

  /** The wildcard keeps every record, in the same order. */
  lemma {:induction false} FilterAll(projects: seq<Project>)
    ensures Filter(projects, All) == projects
  {
    if projects != [] {
      FilterAll(projects[1..]);
      assert projects == [projects[0]] + projects[1..];
    }
  }

  /** Any other filter keeps only records of exactly that category. */
  lemma FilterSelects(projects: seq<Project>, active: Category)
    requires active != All
    ensures forall p :: p in Filter(projects, active) ==> p.category == active
  {
  }

  /**
   * Each record occurs in the result exactly as often as in the input when it
   * is shown, and not at all otherwise: nothing shown is dropped, nothing else kept.
   */
  lemma {:induction false} FilterCount(projects: seq<Project>, active: Category)
    ensures forall p :: multiset(Filter(projects, active))[p]
                        == if Shows(active, p) then multiset(projects)[p] else 0
  {
    if projects != [] {
      FilterCount(projects[1..], active);
      assert projects == [projects[0]] + projects[1..];
      assert multiset(projects) == multiset{projects[0]} + multiset(projects[1..]);
    }
  }

  /** No record that matches the filter is dropped. */
  lemma FilterComplete(projects: seq<Project>, active: Category)
    ensures forall p :: p in projects && Shows(active, p) ==> p in Filter(projects, active)
  {
    FilterCount(projects, active);
    forall p | p in projects && Shows(active, p)
      ensures p in Filter(projects, active)
    {
      assert p in multiset(projects);
    }
  }

  /** The result is an order-preserving subsequence of the input. */
  lemma {:induction false} FilterSubsequence(projects: seq<Project>, active: Category)
    ensures IsSubsequence(Filter(projects, active), projects)
  {
    if projects != [] {
      FilterSubsequence(projects[1..], active);
      var rest := Filter(projects[1..], active);
      if Shows(active, projects[0]) {
        assert ([projects[0]] + rest)[1..] == rest;
      } else {
        SubsequenceOfTail(rest, projects);
      }
    }
  }

  /** A subsequence of the tail is a subsequence of the whole. */
  lemma SubsequenceOfTail<T>(xs: seq<T>, ys: seq<T>)
    requires ys != [] && IsSubsequence(xs, ys[1..])
    ensures IsSubsequence(xs, ys)
  {
  }

  /** Filtering the filtered list again with the same filter changes nothing. */
  lemma {:induction false} FilterIdempotent(projects: seq<Project>, active: Category)
    ensures Filter(Filter(projects, active), active) == Filter(projects, active)
  {
    if projects != [] {
      FilterIdempotent(projects[1..], active);
      var rest := Filter(projects[1..], active);
      if Shows(active, projects[0]) {
        assert ([projects[0]] + rest)[1..] == rest;
      }
    }
  }

  /** Every category has a button, the wildcard first. */
  lemma FiltersCoverCategories()
    ensures Filters[0] == InitialFilter == All
    ensures forall c: Category :: c in Filters
  {
    forall c: Category ensures c in Filters {
      match c
      case All => assert Filters[0] == c;
      case React => assert Filters[1] == c;
      case UiUx => assert Filters[2] == c;
      case OpenSource => assert Filters[3] == c;
    }
  }

  /** The initial view shows all shipped records; each concrete category shows exactly one. */
  lemma ShippedFilterResults()
    ensures FilteredProjects(All) == ProjectData
    ensures FilteredProjects(React) == [ProjectData[0]]
    ensures FilteredProjects(UiUx) == [ProjectData[1]]
    ensures FilteredProjects(OpenSource) == [ProjectData[2]]
    ensures forall c :: c in Filters && c != All ==> |FilteredProjects(c)| == 1
  {
    FilterAll(ProjectData);
    assert ProjectData[1..][1..][1..] == [];
  }
}

/** `ProjectsApi.getProjects`: the project list endpoint of the mock API. */
module ProjectsApi {
  import opened Common
  import opened Query
  import opened Listing

  /** A project; only the fields the list endpoint reads are modelled. */
  datatype Project = Project(id: string, name: string)

  /** The only searchable field of a project is its name. */
  function ProjectFields(project: Project): seq<string>
  {
    [project.name]
  }

  /**
   * Lists `projects` (the module's data set, passed by value: the endpoint
   * works on a deep copy, so the caller's list cannot change).
   */
  method GetProjects(projects: seq<Project>, request: Request,
                     applySort: (seq<Project>, string, SortDir) -> seq<Project>,
                     applyPagination: (seq<Project>, int, int) -> seq<Project>)
    returns (response: Response<Project>)
    ensures request.filters.None? ==> response.count == |projects|
    ensures response.count == |Matching(projects, ProjectFields, request.filters)|
    ensures response.data == Arrange(Matching(projects, ProjectFields, request.filters), request, applySort, applyPagination)
  {
    response := GetPage(projects, ProjectFields, request, applySort, applyPagination);
  }

  /**
   * The filter stage: without an active query every project is kept; with a
   * non-empty query exactly the projects whose name contains it, ignoring case,
   * are kept, each as often as it occurs, in their original relative order.
   */
  lemma FilteredProjects(projects: seq<Project>, filters: Option<Filters>)
    ensures IsSubsequence(Matching(projects, ProjectFields, filters), projects)
    ensures !QueryActive(filters) ==> Matching(projects, ProjectFields, filters) == projects
    ensures QueryActive(filters) ==>
      forall p :: p in Matching(projects, ProjectFields, filters)
        <==> p in projects && FieldMatches(p.name, filters.value.query.value)
    ensures QueryActive(filters) ==>
      forall p :: multiset(Matching(projects, ProjectFields, filters))[p]
        == if FieldMatches(p.name, filters.value.query.value) then multiset(projects)[p] else 0
  {
    MatchingMembers(projects, ProjectFields, filters);
    MatchingCounts(projects, ProjectFields, filters);
    if QueryActive(filters) {
      forall p ensures AnyFieldMatches(ProjectFields(p), filters.value.query.value)
                   <==> FieldMatches(p.name, filters.value.query.value) {
        assert ProjectFields(p)[1..] == [];
      }
    }
  }
}

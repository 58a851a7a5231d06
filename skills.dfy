/** `SkillsApi.getSkills`: the skill list endpoint of the mock API. */
module SkillsApi {
  import opened Common
  import opened Query
  import opened Listing

  /** A skill; only the fields the list endpoint reads are modelled (`skillLabel` is the `label` field). */
  datatype Skill = Skill(id: string, skillLabel: string)

  /** The only searchable field of a skill is its label. */
  function SkillFields(skill: Skill): seq<string>
  {
    [skill.skillLabel]
  }

  /**
   * Lists `skills` (the module's data set, passed by value: the endpoint
   * works on a deep copy, so the caller's list cannot change).
   */
  method GetSkills(skills: seq<Skill>, request: Request,
                   applySort: (seq<Skill>, string, SortDir) -> seq<Skill>,
                   applyPagination: (seq<Skill>, int, int) -> seq<Skill>)
    returns (response: Response<Skill>)
    ensures request.filters.None? ==> response.count == |skills|
    ensures response.count == |Matching(skills, SkillFields, request.filters)|
    ensures response.data == Arrange(Matching(skills, SkillFields, request.filters), request, applySort, applyPagination)
  {
    response := GetPage(skills, SkillFields, request, applySort, applyPagination);
  }

  /**
   * The filter stage: without an active query every skill is kept; with a
   * non-empty query exactly the skills whose label contains it, ignoring case,
   * are kept, each as often as it occurs, in their original relative order.
   */
  lemma FilteredSkills(skills: seq<Skill>, filters: Option<Filters>)
    ensures IsSubsequence(Matching(skills, SkillFields, filters), skills)
    ensures !QueryActive(filters) ==> Matching(skills, SkillFields, filters) == skills
    ensures QueryActive(filters) ==>
      forall p :: p in Matching(skills, SkillFields, filters)
        <==> p in skills && FieldMatches(p.skillLabel, filters.value.query.value)
    ensures QueryActive(filters) ==>
      forall p :: multiset(Matching(skills, SkillFields, filters))[p]
        == if FieldMatches(p.skillLabel, filters.value.query.value) then multiset(skills)[p] else 0
  {
    MatchingMembers(skills, SkillFields, filters);
    MatchingCounts(skills, SkillFields, filters);
    if QueryActive(filters) {
      forall p ensures AnyFieldMatches(SkillFields(p), filters.value.query.value)
                   <==> FieldMatches(p.skillLabel, filters.value.query.value) {
        assert SkillFields(p)[1..] == [];
      }
    }
  }
}

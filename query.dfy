/**
 * The free-text search filter shared by the user, project and skill lists:
 * an item is kept when the query is in force and one of its searchable fields
 * contains the query, ignoring case; every item is kept when it is not.
 */
module Query {
  import opened Common
  import opened Text

  /** The `filters` object of a list request. */
  datatype Filters = Filters(query: Option<string>)

  /** The query test applies: `filters` is given and its `query` is defined and not ''. */
  predicate QueryActive(filters: Option<Filters>)
  {
    filters.Some? && filters.value.query.Some? && filters.value.query.value != ""
  }

  /** `field.toLowerCase().includes(query.toLowerCase())`. */
  predicate FieldMatches(field: string, query: string)
  {
    Includes(Lower(field), Lower(query))
  }

  /** Some searchable field of an item contains the query. */
  predicate AnyFieldMatches(fields: seq<string>, query: string)
    decreases |fields|
  {
    fields != [] && (FieldMatches(fields[0], query) || AnyFieldMatches(fields[1..], query))
  }

  /** The filter callback's verdict on an item whose searchable fields are `fields`. */
  predicate Passes(fields: seq<string>, filters: Option<Filters>)
  {
    !QueryActive(filters) || AnyFieldMatches(fields, filters.value.query.value)
  }

  /** The filter callback as a value, for an item type whose searchable fields `fields` gives. */
  function Keep<T>(fields: T -> seq<string>, filters: Option<Filters>): T -> bool
  {
    x => Passes(fields(x), filters)
  }

  /** The items the filter stage keeps. */
  function Matching<T(!new)>(items: seq<T>, fields: T -> seq<string>, filters: Option<Filters>): (r: seq<T>)
    ensures IsSubsequence(r, items)
    ensures !QueryActive(filters) ==> r == items
  {
    var r := Filter(items, Keep(fields, filters));
    if !QueryActive(filters) then
      FilterAllPass(items, Keep(fields, filters));
      r
    else r
  }

  /** The matches are exactly the items that pass the filter callback. */
  lemma MatchingMembers<T(!new)>(items: seq<T>, fields: T -> seq<string>, filters: Option<Filters>)
    ensures forall x :: x in Matching(items, fields, filters) <==> x in items && Passes(fields(x), filters)
  {
  }

  /** Each item is kept as many times as it occurs when it passes, and not at all otherwise. */
  lemma MatchingCounts<T(!new)>(items: seq<T>, fields: T -> seq<string>, filters: Option<Filters>)
    ensures forall x :: multiset(Matching(items, fields, filters))[x]
                     == if Passes(fields(x), filters) then multiset(items)[x] else 0
  {
    FilterCounts(items, Keep(fields, filters));
  }

  /** Appending one item appends it to the matches exactly when it passes. */
  lemma MatchingSnoc<T(!new)>(items: seq<T>, x: T, fields: T -> seq<string>, filters: Option<Filters>)
    ensures Matching(items + [x], fields, filters)
         == Matching(items, fields, filters) + (if Passes(fields(x), filters) then [x] else [])
  {
    FilterConcat(items, [x], Keep(fields, filters));
  }

  /** One step of the filter loop: the matches of a longer prefix. */
  lemma MatchingStep<T(!new)>(items: seq<T>, i: nat, fields: T -> seq<string>, filters: Option<Filters>)
    requires i < |items|
    ensures Matching(items[..i + 1], fields, filters)
         == Matching(items[..i], fields, filters) + (if Passes(fields(items[i]), filters) then [items[i]] else [])
  {
    assert items[..i + 1] == items[..i] + [items[i]];
    MatchingSnoc(items[..i], items[i], fields, filters);
  }

  /**
   * The `forEach` over the searchable properties that raises the
   * `queryMatched` flag; every property is visited.
   */
  method MatchAny(fields: seq<string>, query: string) returns (queryMatched: bool)
    ensures queryMatched <==> AnyFieldMatches(fields, query)
  {
    queryMatched := false;
    var k := 0;
    while k < |fields|
      invariant 0 <= k <= |fields|
      invariant (queryMatched || AnyFieldMatches(fields[k..], query)) == AnyFieldMatches(fields, query)
    {
      assert fields[k..][1..] == fields[k + 1..];
      if FieldMatches(fields[k], query) {
        queryMatched := true;
      }
      k := k + 1;
    }
  }

  /** Matching ignores the case of both the field and the query. */
  lemma MatchIgnoresCase(field: string, query: string)
    ensures FieldMatches(Lower(field), query) == FieldMatches(field, query)
    ensures FieldMatches(field, Lower(query)) == FieldMatches(field, query)
  {
    LowerFacts(field);
    LowerFacts(query);
  }

  /** A field that contains the query verbatim matches it. */
  lemma VerbatimOccurrenceMatches(field: string, query: string, i: nat)
    requires OccursAt(field, query, i)
    ensures FieldMatches(field, query)
  {
    var lf, lq := Lower(field), Lower(query);
    LowerFacts(field);
    LowerFacts(query);
    assert lf[i..i + |lq|] == lq by {
      forall j | 0 <= j < |lq| ensures lf[i..i + |lq|][j] == lq[j] {
        assert field[i + j] == query[j];
      }
    }
    assert OccursAt(lf, lq, i);
  }
}

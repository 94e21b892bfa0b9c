/**
 * The search of ResearchDiscovery.tsx: a guarded, case-insensitive substring filter over
 * every paper the remote store returns, and the rule that re-runs it when filters change.
 * The selected filters are stored but do not take part in the search.
 */
module ResearchDiscovery {

  import opened Wrappers
  import opened Text
  import opened Values
  import SearchFilters
  import Supabase

  /** The component state the search reads and writes. */
  datatype Discovery = Discovery(query: string, results: seq<Record>, filters: SearchFilters.Filters, error: Option<string>)

  const Initial: Discovery := Discovery("", [], SearchFilters.Defaults, None)

  /** `(v && v.toLowerCase().includes(query.toLowerCase()))` for a field that holds a string. */
  predicate FieldMatches(v: Json, query: string) {
    v.JStr? && v.s != "" && Contains(Lower(v.s), Lower(query))
  }

  predicate Matches(paper: Record, query: string) {
    FieldMatches(Field(paper, "title"), query) || FieldMatches(Field(paper, "content"), query)
  }

  /** `allPapers.filter(...)`. */
  function FilterPapers(papers: seq<Record>, query: string): (r: seq<Record>)
    ensures |r| <= |papers|
    ensures forall p :: p in r <==> p in papers && Matches(p, query)
  {
    if papers == [] then []
    else if Matches(papers[0], query) then [papers[0]] + FilterPapers(papers[1..], query)
    else FilterPapers(papers[1..], query)
  }

  /** Filtering keeps the fetched order: filtering a concatenation filters each part in turn. */
  lemma {:induction false} FilterKeepsOrder(a: seq<Record>, b: seq<Record>, query: string)
    ensures FilterPapers(a + b, query) == FilterPapers(a, query) + FilterPapers(b, query)
    decreases |a|
  {
    if a == [] {
      assert a + b == b;
    } else {
      assert (a + b)[0] == a[0] && (a + b)[1..] == a[1..] + b;
      FilterKeepsOrder(a[1..], b, query);
    }
  }

  /** The results are a subsequence of the fetched papers. */
  lemma {:induction false} FilterIsSubsequence(papers: seq<Record>, query: string)
    ensures Subsequence(FilterPapers(papers, query), papers)
    decreases |papers|
  {
    if papers != [] {
      FilterIsSubsequence(papers[1..], query);
      if Matches(papers[0], query) {
        var r := FilterPapers(papers, query);
        assert r[0] == papers[0] && r[1..] == FilterPapers(papers[1..], query);
      }
    }
  }

  /** Searching the results again with the same query keeps every one of them. */
  lemma {:induction false} FilterIdempotent(papers: seq<Record>, query: string)
    ensures FilterPapers(FilterPapers(papers, query), query) == FilterPapers(papers, query)
    decreases |papers|
  {
    if papers != [] {
      FilterIdempotent(papers[1..], query);
      if Matches(papers[0], query) {
        var r := FilterPapers(papers, query);
        assert r[0] == papers[0] && r[1..] == FilterPapers(papers[1..], query);
      }
    }
  }

  /** Case does not matter: queries that lowercase alike give the same results. */
  lemma SearchIgnoresCase(papers: seq<Record>, q1: string, q2: string)
    requires Lower(q1) == Lower(q2)
    ensures FilterPapers(papers, q1) == FilterPapers(papers, q2)
  {
    assert forall p :: Matches(p, q1) == Matches(p, q2);
    FilterSameMatches(papers, q1, q2);
  }

  lemma {:induction false} FilterSameMatches(papers: seq<Record>, q1: string, q2: string)
    requires forall p :: Matches(p, q1) == Matches(p, q2)
    ensures FilterPapers(papers, q1) == FilterPapers(papers, q2)
    decreases |papers|
  {
    if papers != [] {
      FilterSameMatches(papers[1..], q1, q2);
    }
  }

  /**
   * `performSearch`; `fetched` is what `SupabaseService.getPapers()` resolves to or the
   * message it rejects with.
   */
  function PerformSearch(s: Discovery, fetched: Result<seq<Record>, string>): (r: Discovery)
    ensures Trim(s.query) == "" ==> r == s
    ensures Trim(s.query) != "" && fetched.Success? ==> r == s.(results := FilterPapers(fetched.value, s.query), error := None)
    ensures Trim(s.query) != "" && fetched.Failure? ==> r == s.(error := Some(fetched.error))
  {
    if Trim(s.query) == "" then s
    else match fetched
      case Success(all) => s.(results := FilterPapers(all, s.query), error := None)
      case Failure(m) => s.(error := Some(m))
  }

  /** A query of whitespace only searches nothing and leaves the state as it was. */
  lemma BlankQueryNoSearch(s: Discovery, fetched: Result<seq<Record>, string>)
    requires forall i :: 0 <= i < |s.query| ==> IsJsWhitespace(s.query[i])
    ensures PerformSearch(s, fetched) == s
  {
    TrimEmptyIffBlank(s.query);
  }

  /** `handleFilterChange`: store the filters, and search again only when there are results. */
  function HandleFilterChange(s: Discovery, newFilters: SearchFilters.Filters, fetched: Result<seq<Record>, string>): (r: Discovery)
    ensures r.filters == newFilters
    ensures |s.results| == 0 ==> r == s.(filters := newFilters)
    ensures |s.results| > 0 ==> r == PerformSearch(s.(filters := newFilters), fetched)
  {
    var next := s.(filters := newFilters);
    if |s.results| > 0 then PerformSearch(next, fetched) else next
  }

  /** The filters never change which papers are found. */
  lemma FiltersDoNotAffectResults(s: Discovery, f1: SearchFilters.Filters, f2: SearchFilters.Filters, fetched: Result<seq<Record>, string>)
    ensures HandleFilterChange(s, f1, fetched).results == HandleFilterChange(s, f2, fetched).results
    ensures HandleFilterChange(s, f1, fetched).error == HandleFilterChange(s, f2, fetched).error
  {
  }

  /** A hit is a fetched paper whose title or content contains the query, ignoring case, and every such paper is a hit. */
  lemma SearchFindsExactlyMatches(s: Discovery, all: seq<Record>, p: Record)
    requires Trim(s.query) != ""
    ensures p in PerformSearch(s, Success(all)).results <==> (p in all &&
      ((Field(p, "title").JStr? && Field(p, "title").s != "" && Contains(Lower(Field(p, "title").s), Lower(s.query))) ||
       (Field(p, "content").JStr? && Field(p, "content").s != "" && Contains(Lower(Field(p, "content").s), Lower(s.query)))))
  {
  }

  /** Without a configured backend the store returns no papers, so every search comes back empty. */
  lemma NoBackendNoResults(s: Discovery, entries: map<string, Supabase.CacheEntry>, uid: Option<string>,
                           query: Supabase.PapersQuery, readAt: int, writeAt: int)
    requires Trim(s.query) != ""
    ensures var r := PerformSearch(s, Success(Supabase.GetPapersSpec(entries, false, uid, query, readAt, writeAt).1));
      r.results == [] && r.error == None
  {
  }
}

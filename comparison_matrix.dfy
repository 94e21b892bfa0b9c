/**
 * The comparison heuristics of ComparisonMatrix.tsx: the bounded paper selection, the
 * methodology fallback, the quality score, and the similarities, differences and synthesis
 * verdict that `generateComparison` derives from the selected papers.
 */
module ComparisonMatrix {

  import opened Wrappers
  import opened Text
  import opened Values

  /** At most this many papers are compared at once. */
  const MaxSelected: nat := 5

  // ---- Selection ----

  function PaperId(p: Record): Json {
    Field(p, "id")
  }

  /** `prev.some(p => p.id === id)`. */
  predicate IsSelected(prev: seq<Record>, id: Json) {
    exists i :: 0 <= i < |prev| && PaperId(prev[i]) == id
  }

  /** `prev.filter(p => p.id !== id)`. */
  function Deselect(prev: seq<Record>, id: Json): (r: seq<Record>)
    ensures |r| <= |prev|
    ensures forall i :: 0 <= i < |r| ==> PaperId(r[i]) != id
    ensures forall p :: p in r <==> p in prev && PaperId(p) != id
  {
    if prev == [] then []
    else if PaperId(prev[0]) == id then Deselect(prev[1..], id)
    else [prev[0]] + Deselect(prev[1..], id)
  }

  /** Every copy of a paper with that id goes, and every other paper stays as often as it was there. */
  lemma {:induction false} DeselectCounts(prev: seq<Record>, id: Json, p: Record)
    ensures multiset(Deselect(prev, id))[p] == if PaperId(p) == id then 0 else multiset(prev)[p]
    decreases |prev|
  {
    if prev != [] {
      assert prev == [prev[0]] + prev[1..];
      DeselectCounts(prev[1..], id, p);
    }
  }

  /** Deselecting keeps the order: deselecting from a concatenation deselects from each part in turn. */
  lemma {:induction false} DeselectKeepsOrder(a: seq<Record>, b: seq<Record>, id: Json)
    ensures Deselect(a + b, id) == Deselect(a, id) + Deselect(b, id)
    decreases |a|
  {
    if a == [] {
      assert a + b == b;
    } else {
      var ab := a + b;
      assert ab[0] == a[0] && ab[1..] == a[1..] + b;
      DeselectKeepsOrder(a[1..], b, id);
      var rest := Deselect(a[1..], id) + Deselect(b, id);
      if PaperId(a[0]) == id {
        assert Deselect(ab, id) == rest;
      } else {
        assert Deselect(ab, id) == [a[0]] + rest;
        assert Deselect(a, id) == [a[0]] + Deselect(a[1..], id);
      }
    }
  }

  /** The papers left are the previous ones with entries dropped and the rest in their order. */
  lemma {:induction false} DeselectIsSubsequence(prev: seq<Record>, id: Json)
    ensures Subsequence(Deselect(prev, id), prev)
    decreases |prev|
  {
    if prev != [] {
      DeselectIsSubsequence(prev[1..], id);
      if PaperId(prev[0]) != id {
        var r := Deselect(prev, id);
        assert r[0] == prev[0] && r[1..] == Deselect(prev[1..], id);
      }
    }
  }

  /** `togglePaperSelection`. */
  function ToggleSelection(prev: seq<Record>, paper: Record): seq<Record> {
    if IsSelected(prev, PaperId(paper)) then Deselect(prev, PaperId(paper))
    else if |prev| < MaxSelected then prev + [paper]
    else prev
  }

  /**
   * A selected paper's id is removed together with every entry that has it, and every other
   * entry stays, as often as before and in its order; an unselected paper is appended while
   * fewer than five are selected, and otherwise nothing changes.
   */
  lemma ToggleSelectionEffect(prev: seq<Record>, paper: Record)
    ensures IsSelected(prev, PaperId(paper)) ==>
      && !IsSelected(ToggleSelection(prev, paper), PaperId(paper))
      && (forall p :: PaperId(p) != PaperId(paper) ==> multiset(ToggleSelection(prev, paper))[p] == multiset(prev)[p])
      && Subsequence(ToggleSelection(prev, paper), prev)
    ensures !IsSelected(prev, PaperId(paper)) && |prev| < MaxSelected ==> ToggleSelection(prev, paper) == prev + [paper]
    ensures !IsSelected(prev, PaperId(paper)) && |prev| >= MaxSelected ==> ToggleSelection(prev, paper) == prev
  {
    var r := ToggleSelection(prev, paper);
    if IsSelected(prev, PaperId(paper)) {
      DeselectIsSubsequence(prev, PaperId(paper));
      forall p | PaperId(p) != PaperId(paper) ensures multiset(r)[p] == multiset(prev)[p] {
        DeselectCounts(prev, PaperId(paper), p);
      }
      forall i | 0 <= i < |r| ensures PaperId(r[i]) != PaperId(paper) {
      }
    }
  }

  /** However the user clicks, starting from any selection of at most five, at most five stay selected. */
  lemma {:induction false} SelectionBound(start: seq<Record>, clicks: seq<Record>)
    requires |start| <= MaxSelected
    ensures |Apply(start, clicks)| <= MaxSelected
    decreases |clicks|
  {
    if clicks != [] {
      SelectionBound(ToggleSelection(start, clicks[0]), clicks[1..]);
    }
  }

  /** The selection after a series of clicks. */
  function Apply(start: seq<Record>, clicks: seq<Record>): seq<Record>
    decreases |clicks|
  {
    if clicks == [] then start else Apply(ToggleSelection(start, clicks[0]), clicks[1..])
  }

  // ---- Reading the analysis ----

  /** `p.analysis?.k`. */
  function AnalysisField(p: Record, k: string): Json {
    var a := Field(p, "analysis");
    if a.JObj? then Field(a.fields, k) else JNull
  }

  /** `p.analysis?.paper_metadata?.k`. */
  function MetadataField(p: Record, k: string): Json {
    var m := AnalysisField(p, "paper_metadata");
    if m.JObj? then Field(m.fields, k) else JNull
  }

  /** `(p.analysis?.key_methodologies || [])[0]`. */
  function FirstMethod(p: Record): Json {
    var km := AnalysisField(p, "key_methodologies");
    if km.JArr? && |km.items| > 0 then km.items[0] else JNull
  }

  /** `p.analysis?.methodology || firstMethod || 'Experimental'`. */
  function DisplayMethodology(p: Record): (m: Json)
    ensures Truthy(m)
    ensures Truthy(AnalysisField(p, "methodology")) ==> m == AnalysisField(p, "methodology")
    ensures !Truthy(AnalysisField(p, "methodology")) && Truthy(FirstMethod(p)) ==> m == FirstMethod(p)
    ensures !Truthy(AnalysisField(p, "methodology")) && !Truthy(FirstMethod(p)) ==> m == JStr("Experimental")
  {
    if Truthy(AnalysisField(p, "methodology")) then AnalysisField(p, "methodology")
    else if Truthy(FirstMethod(p)) then FirstMethod(p)
    else JStr("Experimental")
  }

  /** `{ ...p, analysis: { ...p.analysis, methodology } }`. */
  function Prepare(p: Record): (r: Record)
    ensures r.Keys == p.Keys + {"analysis"}
    ensures forall k :: k in p && k != "analysis" ==> r[k] == p[k]
    ensures AnalysisField(r, "methodology") == DisplayMethodology(p)
    ensures forall k :: k != "methodology" ==> AnalysisField(r, k) == AnalysisField(p, k)
  {
    var a := Field(p, "analysis");
    var fields := if a.JObj? then a.fields else map[];
    p["analysis" := JObj(fields["methodology" := DisplayMethodology(p)])]
  }

  /** Preparing a prepared paper changes nothing: the methodology it was given is kept. */
  lemma PrepareIdempotent(p: Record)
    ensures Prepare(Prepare(p)) == Prepare(p)
  {
    var q := Prepare(p);
    assert AnalysisField(q, "methodology") == DisplayMethodology(p);
    assert DisplayMethodology(q) == DisplayMethodology(p);
    var a := Field(q, "analysis");
    assert a.JObj? && a.fields["methodology"] == DisplayMethodology(p);
    assert a.fields["methodology" := DisplayMethodology(q)] == a.fields;
  }

  /** The lowercased research-quality string; anything but a string counts as empty. */
  function QualityText(p: Record): string {
    var q := MetadataField(p, "research_quality");
    if q.JStr? then Lower(q.s) else ""
  }

  /**
   * The quality score of a lowercased quality string: 90, 75 or 60 by the first of
   * `high`, `medium`, `low` it contains, else `fallback` (the rounded confidence).
   */
  function QualityScore(q: string, fallback: int): int {
    if Contains(q, "high") then 90
    else if Contains(q, "medium") then 75
    else if Contains(q, "low") then 60
    else fallback
  }

  /** The tests run in order: a string naming two levels scores by the first in that order. */
  lemma QualityScoreOrder(q: string, fallback: int)
    ensures Contains(q, "high") ==> QualityScore(q, fallback) == 90
    ensures !Contains(q, "high") && Contains(q, "medium") ==> QualityScore(q, fallback) == 75
    ensures !Contains(q, "high") && !Contains(q, "medium") && Contains(q, "low") ==> QualityScore(q, fallback) == 60
    ensures QualityScore(q, fallback) != fallback ==> QualityScore(q, fallback) in {60, 75, 90}
  {
  }

  /**
   * Case does not matter: two papers whose quality strings differ only in letter case, and
   * whose confidences agree, get the same score.
   */
  lemma QualityIgnoresCase(p1: Record, p2: Record, s1: string, s2: string, round: Json -> int)
    requires MetadataField(p1, "research_quality") == JStr(s1) && MetadataField(p2, "research_quality") == JStr(s2)
    requires Lower(s1) == Lower(s2)
    requires AnalysisField(p1, "analysis_confidence") == AnalysisField(p2, "analysis_confidence")
    ensures Quality(p1, round) == Quality(p2, round)
  {
  }

  /** `"High"` and `"HIGH"` lower-case to `"high"`, so they score 90 like it. */
  lemma HighSpellings(fallback: int)
    ensures Lower("HIGH") == "high" && Lower("High") == "high"
    ensures QualityScore(Lower("HIGH"), fallback) == 90 && QualityScore(Lower("High"), fallback) == 90
  {
    assert Lower("HIGH") == "high";
    assert Lower("High") == "high";
    assert OccursAt("high", "high", 0);
  }

  /**
   * The quality score of one paper: by its quality text, else `round` of its
   * `analysis_confidence`, where `round(x)` is `Math.round((x || 0.7) * 100)`.
   */
  function Quality(p: Record, round: Json -> int): int {
    QualityScore(QualityText(p), round(AnalysisField(p, "analysis_confidence")))
  }

  /** `prepared.map(...)` of the quality scores. */
  function Qualities(papers: seq<Record>, round: Json -> int): (r: seq<int>)
    ensures |r| == |papers| && forall i :: 0 <= i < |papers| ==> r[i] == Quality(papers[i], round)
  {
    seq(|papers|, i requires 0 <= i < |papers| => Quality(papers[i], round))
  }

  /** A number read with `x || 0`; values that are not integers count as 0. */
  function NumberOr0(v: Json): int {
    if v.JNum? then v.n else 0
  }

  function Complexity(p: Record): int {
    NumberOr0(AnalysisField(p, "complexity_score"))
  }

  function Citations(p: Record): int {
    NumberOr0(MetadataField(p, "estimated_citations"))
  }

  // ---- Ranges ----

  function Min(xs: seq<int>): (m: int)
    requires |xs| > 0
    ensures m in xs && forall x :: x in xs ==> m <= x
  {
    if |xs| == 1 then xs[0]
    else
      var rest := Min(xs[1..]);
      assert forall x :: x in xs ==> x == xs[0] || x in xs[1..];
      if xs[0] <= rest then xs[0] else rest
  }

  function Max(xs: seq<int>): (m: int)
    requires |xs| > 0
    ensures m in xs && forall x :: x in xs ==> x <= m
  {
    if |xs| == 1 then xs[0]
    else
      var rest := Max(xs[1..]);
      assert forall x :: x in xs ==> x == xs[0] || x in xs[1..];
      if xs[0] >= rest then xs[0] else rest
  }

  /** `{ min: Math.min(...xs), max: Math.max(...xs) }`; `None` stands for the infinite bounds of an empty list. */
  function MinMax(xs: seq<int>): (r: Option<(int, int)>)
    ensures r.None? <==> xs == []
    ensures r.Some? ==> r.value.0 <= r.value.1
  {
    if xs == [] then None else Some((Min(xs), Max(xs)))
  }

  // ---- Domains and methods ----

  function PrimaryDomain(p: Record): Json {
    AnalysisField(p, "domain_primary")
  }

  /** `prepared.map(p => p.analysis?.domain_primary).filter(Boolean)`. */
  function Domains(papers: seq<Record>): (ds: seq<Json>)
    ensures forall d :: d in ds ==> Truthy(d)
  {
    if papers == [] then []
    else
      var d := PrimaryDomain(papers[0]);
      if Truthy(d) then [d] + Domains(papers[1..]) else Domains(papers[1..])
  }

  /** Paper `i` has a primary domain. */
  predicate HasDomain(papers: seq<Record>, i: int) {
    0 <= i < |papers| && Truthy(PrimaryDomain(papers[i]))
  }

  /** The filtered list holds exactly the domains of the papers that have one. */
  lemma {:induction false} DomainsMembers(papers: seq<Record>, d: Json)
    ensures d in Domains(papers) <==> exists i :: HasDomain(papers, i) && PrimaryDomain(papers[i]) == d
    decreases |papers|
  {
    if papers != [] {
      DomainsMembers(papers[1..], d);
      if exists i :: HasDomain(papers[1..], i) && PrimaryDomain(papers[1..][i]) == d {
        var i :| HasDomain(papers[1..], i) && PrimaryDomain(papers[1..][i]) == d;
        assert HasDomain(papers, i + 1) && PrimaryDomain(papers[i + 1]) == d;
      }
      if exists i :: HasDomain(papers, i) && PrimaryDomain(papers[i]) == d {
        var i :| HasDomain(papers, i) && PrimaryDomain(papers[i]) == d;
        if i > 0 {
          assert HasDomain(papers[1..], i - 1) && PrimaryDomain(papers[1..][i - 1]) == d;
        }
      }
    }
  }

  predicate AllEqual(ds: seq<Json>) {
    forall i :: 0 <= i < |ds| ==> ds[i] == ds[0]
  }

  /** `domains.length > 0 && domains.every(d => d === domains[0])`. */
  predicate SameDomain(papers: seq<Record>) {
    |Domains(papers)| > 0 && AllEqual(Domains(papers))
  }

  /**
   * Papers without a primary domain are ignored: the papers share a domain exactly when
   * some paper has one and any two papers that have one have the same.
   */
  lemma SameDomainMeaning(papers: seq<Record>)
    ensures SameDomain(papers) <==>
      (exists i :: HasDomain(papers, i)) &&
      (forall i, j :: HasDomain(papers, i) && HasDomain(papers, j) ==> PrimaryDomain(papers[i]) == PrimaryDomain(papers[j]))
  {
    var ds := Domains(papers);
    var some := exists i :: HasDomain(papers, i);
    var agree := forall i, j :: HasDomain(papers, i) && HasDomain(papers, j) ==> PrimaryDomain(papers[i]) == PrimaryDomain(papers[j]);
    if |ds| > 0 {
      DomainsMembers(papers, ds[0]);
      assert some;
    } else if some {
      var i :| HasDomain(papers, i);
      DomainsMembers(papers, PrimaryDomain(papers[i]));
    }
    if SameDomain(papers) {
      forall i, j | HasDomain(papers, i) && HasDomain(papers, j) ensures PrimaryDomain(papers[i]) == PrimaryDomain(papers[j]) {
        DomainsMembers(papers, PrimaryDomain(papers[i]));
        DomainsMembers(papers, PrimaryDomain(papers[j]));
        var a :| 0 <= a < |ds| && ds[a] == PrimaryDomain(papers[i]);
        var b :| 0 <= b < |ds| && ds[b] == PrimaryDomain(papers[j]);
      }
    }
    if |ds| > 0 && agree {
      forall k | 0 <= k < |ds| ensures ds[k] == ds[0] {
        assert ds[k] in ds && ds[0] in ds;
        DomainsMembers(papers, ds[k]);
        DomainsMembers(papers, ds[0]);
      }
    }
  }

  /** `new Set((p.analysis?.key_methodologies || []).map(m => m.toLowerCase()))`, over the string entries. */
  function MethodSet(p: Record): set<string> {
    var km := AnalysisField(p, "key_methodologies");
    if km.JArr? then set i | 0 <= i < |km.items| && km.items[i].JStr? :: Lower(km.items[i].s) else {}
  }

  /** The `reduce` from `null`: the first set, then its intersection with each following one. */
  function Intersect(acc: Option<set<string>>, sets: seq<set<string>>): Option<set<string>>
    decreases |sets|
  {
    if sets == [] then acc
    else Intersect(Some(if acc.Some? then acc.value * sets[0] else sets[0]), sets[1..])
  }

  function MethodSets(papers: seq<Record>): (r: seq<set<string>>)
    ensures |r| == |papers| && forall i :: 0 <= i < |papers| ==> r[i] == MethodSet(papers[i])
  {
    seq(|papers|, i requires 0 <= i < |papers| => MethodSet(papers[i]))
  }

  function CommonMethods(papers: seq<Record>): Option<set<string>> {
    Intersect(None, MethodSets(papers))
  }

  lemma {:induction false} IntersectMembers(acc: set<string>, sets: seq<set<string>>, x: string)
    ensures Intersect(Some(acc), sets).Some?
    ensures x in Intersect(Some(acc), sets).value <==> x in acc && forall i :: 0 <= i < |sets| ==> x in sets[i]
    decreases |sets|
  {
    if sets != [] {
      IntersectMembers(acc * sets[0], sets[1..], x);
      assert forall i :: 1 <= i < |sets| ==> sets[i] == sets[1..][i - 1];
    }
  }

  /**
   * With no papers there is no method set; otherwise a method is common exactly when every
   * paper lists it, ignoring case.
   */
  lemma CommonMethodsMeaning(papers: seq<Record>, x: string)
    ensures papers == [] <==> CommonMethods(papers).None?
    ensures papers != [] ==> (x in CommonMethods(papers).value <==> forall i :: 0 <= i < |papers| ==> x in MethodSet(papers[i]))
  {
    var sets := MethodSets(papers);
    if papers != [] {
      IntersectMembers(sets[0], sets[1..], x);
      assert forall i :: 1 <= i < |sets| ==> sets[i] == sets[1..][i - 1];
    }
  }

  // ---- The comparison ----

  datatype Similarity = CommonDomain(domain: Json) | SharedMethodologies(methods: set<string>)
  datatype Difference = DifferentDomains | ComplexityVaries(min: int, max: int)

  const ResearchGap: string := "Align methodologies or domains for meta-analysis"

  datatype Comparison = Comparison(
    selection: seq<Record>,
    similarities: seq<Similarity>,
    differences: seq<Difference>,
    feasible: bool,
    gaps: seq<string>,
    citationRange: Option<(int, int)>,
    qualityRange: Option<(int, int)>)

  function Map<A, B>(xs: seq<A>, f: A -> B): (r: seq<B>)
    ensures |r| == |xs| && forall i :: 0 <= i < |xs| ==> r[i] == f(xs[i])
  {
    seq(|xs|, i requires 0 <= i < |xs| => f(xs[i]))
  }

  /** `commonMethods && commonMethods.size > 0`. */
  predicate HasCommonMethods(papers: seq<Record>) {
    CommonMethods(papers).Some? && |CommonMethods(papers).value| > 0
  }

  /** The complexity note, present when the scores span at least two points. */
  function ComplexityNote(papers: seq<Record>): seq<Difference> {
    match MinMax(Map(papers, Complexity))
    case Some((lo, hi)) => if hi - lo >= 2 then [ComplexityVaries(lo, hi)] else []
    case None => []
  }

  function Differences(prepared: seq<Record>): seq<Difference> {
    (if !SameDomain(prepared) then [DifferentDomains] else []) + ComplexityNote(prepared)
  }

  function Similarities(prepared: seq<Record>): seq<Similarity> {
    (if SameDomain(prepared) then [CommonDomain(Domains(prepared)[0])] else [])
    + (if HasCommonMethods(prepared) then [SharedMethodologies(CommonMethods(prepared).value)] else [])
  }

  /** `allSameDomain && !!(commonMethods && commonMethods.size > 0)`. */
  predicate Feasible(prepared: seq<Record>) {
    SameDomain(prepared) && HasCommonMethods(prepared)
  }

  /**
   * `generateComparison` over the selected papers: the prepared papers become the new
   * selection, and the comparison is read off them. `round` stands for the rounding of a
   * confidence value.
   */
  function GenerateComparison(selected: seq<Record>, round: Json -> int): (c: Comparison)
    ensures c.selection == Map(selected, Prepare)
    ensures c.feasible <==> SameDomain(c.selection) && HasCommonMethods(c.selection)
    ensures c.gaps == if c.feasible then [] else [ResearchGap]
    ensures (DifferentDomains in c.differences) <==> !SameDomain(c.selection)
    ensures c.differences == Differences(c.selection)
    ensures c.similarities == Similarities(c.selection)
    ensures c.citationRange == MinMax(Map(selected, Citations))
    ensures c.qualityRange == MinMax(Qualities(selected, round))
    ensures c.citationRange.None? <==> selected == []
    ensures c.qualityRange.None? <==> selected == []
  {
    PrepareKeepsInputs(selected);
    PrepareKeepsQuality(selected, round);
    var prepared := Map(selected, Prepare);
    var feasible := Feasible(prepared);
    Comparison(prepared, Similarities(prepared), Differences(prepared), feasible, if feasible then [] else [ResearchGap],
      MinMax(Map(prepared, Citations)),
      MinMax(Qualities(prepared, round)))
  }

  /** Preparing a paper leaves the fields the comparison reads untouched. */
  lemma PrepareKeepsInputs(selected: seq<Record>)
    ensures Map(Map(selected, Prepare), Complexity) == Map(selected, Complexity)
    ensures Map(Map(selected, Prepare), MethodSet) == Map(selected, MethodSet)
    ensures Map(Map(selected, Prepare), Citations) == Map(selected, Citations)
  {
  }

  /** Preparing a paper leaves its primary domain untouched, so the domain list is the same. */
  lemma {:induction false} PrepareKeepsDomains(selected: seq<Record>)
    ensures Domains(Map(selected, Prepare)) == Domains(selected)
    decreases |selected|
  {
    if selected != [] {
      var prepared := Map(selected, Prepare);
      assert prepared[1..] == Map(selected[1..], Prepare);
      assert PrimaryDomain(prepared[0]) == PrimaryDomain(selected[0]);
      PrepareKeepsDomains(selected[1..]);
    }
  }

  /** Preparing a paper leaves its quality text and its confidence, hence its quality score, untouched. */
  lemma PrepareKeepsQuality(selected: seq<Record>, round: Json -> int)
    ensures Qualities(Map(selected, Prepare), round) == Qualities(selected, round)
  {
  }

  /**
   * The new selection holds the same papers in the same order, each now showing its
   * display methodology.
   */
  lemma SelectionPrepared(selected: seq<Record>)
    ensures var s := Map(selected, Prepare);
      && |s| == |selected|
      && forall i :: 0 <= i < |selected| ==>
        PaperId(s[i]) == PaperId(selected[i]) && AnalysisField(s[i], "methodology") == DisplayMethodology(selected[i])
  {
    var s := Map(selected, Prepare);
    forall i | 0 <= i < |selected|
      ensures PaperId(s[i]) == PaperId(selected[i]) && AnalysisField(s[i], "methodology") == DisplayMethodology(selected[i])
    {
      assert s[i] == Prepare(selected[i]);
    }
  }

  /**
   * Comparing again right away changes nothing: the new selection is already prepared, so
   * it stays as it is and gives the same comparison.
   */
  lemma CompareAgainSame(selected: seq<Record>, round: Json -> int)
    ensures var c := GenerateComparison(selected, round); GenerateComparison(c.selection, round) == c
  {
    var prepared := Map(selected, Prepare);
    forall i | 0 <= i < |prepared| ensures Prepare(prepared[i]) == prepared[i] {
      PrepareIdempotent(selected[i]);
    }
    assert Map(prepared, Prepare) == prepared;
  }

  /** Some method is listed, ignoring case, by every paper. */
  predicate CommonToAll(papers: seq<Record>, x: string) {
    forall i :: 0 <= i < |papers| ==> x in MethodSet(papers[i])
  }

  /**
   * The complexity note appears exactly when at least one paper is selected and the highest
   * score is at least two above the lowest, a missing score counting as 0.
   */
  lemma ComplexityNoteRule(selected: seq<Record>, round: Json -> int)
    ensures var c := GenerateComparison(selected, round);
      (exists d :: d in c.differences && d.ComplexityVaries?) <==>
        selected != [] && Max(Map(selected, Complexity)) - Min(Map(selected, Complexity)) >= 2
  {
    var prepared := Map(selected, Prepare);
    PrepareKeepsInputs(selected);
    var note := ComplexityNote(prepared);
    var ds := Differences(prepared);
    assert forall d :: d in ds <==> (d == DifferentDomains && !SameDomain(prepared)) || d in note;
    if selected != [] && Max(Map(selected, Complexity)) - Min(Map(selected, Complexity)) >= 2 {
      assert note[0] in ds;
    }
  }

  /** Meta-analysis is feasible exactly when a domain is shared and some method appears in every paper. */
  lemma FeasibilityRule(selected: seq<Record>, round: Json -> int)
    ensures var c := GenerateComparison(selected, round);
      c.feasible <==> (SameDomain(selected) && exists x :: CommonToAll(selected, x))
  {
    var prepared := Map(selected, Prepare);
    PrepareKeepsInputs(selected);
    PrepareKeepsDomains(selected);
    assert forall i :: 0 <= i < |prepared| ==> MethodSet(prepared[i]) == MethodSet(selected[i]);
    var common := CommonMethods(prepared);
    if selected != [] && exists x :: CommonToAll(selected, x) {
      var x :| CommonToAll(selected, x);
      CommonMethodsMeaning(prepared, x);
      assert x in common.value;
    }
    if HasCommonMethods(prepared) {
      var x :| x in common.value;
      CommonMethodsMeaning(prepared, x);
      assert CommonToAll(selected, x);
    }
  }

  /**
   * The similarities name the shared domain, the first one listed, exactly when all papers
   * share it, and the shared methodologies exactly when some method is common to all.
   */
  lemma SimilarityRule(prepared: seq<Record>)
    ensures SameDomain(prepared) ==> Similarities(prepared)[0] == CommonDomain(Domains(prepared)[0])
    ensures forall d :: CommonDomain(d) in Similarities(prepared) <==> SameDomain(prepared) && d == Domains(prepared)[0]
    ensures forall m :: SharedMethodologies(m) in Similarities(prepared) <==> HasCommonMethods(prepared) && m == CommonMethods(prepared).value
  {
    var a: seq<Similarity> := if SameDomain(prepared) then [CommonDomain(Domains(prepared)[0])] else [];
    var b: seq<Similarity> := if HasCommonMethods(prepared) then [SharedMethodologies(CommonMethods(prepared).value)] else [];
    assert Similarities(prepared) == a + b;
    assert forall x :: x in a + b <==> x in a || x in b;
  }
}
